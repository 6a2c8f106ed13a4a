/**
 * EventLoop (src/net/EventLoop.cpp, include/net/EventLoop.h): the loop
 * flags, the pending-task queue, the wakeup channel and the loop itself.
 *
 * `wakeup()` writes to an eventfd; here it counts. The task state the pure
 * module LoopTasks describes is State().
 */

/**
 * The read callback of the wakeup channel: it only reads the eventfd, which
 * is I/O, so running it logs its start and changes nothing else.
 */
function WakeupHandler(): (f: LoopTasks.Functor)
  ensures forall s :: LoopTasks.Exec(s, f) == s.(log := s.log + [LoopTasks.Ran(f.id)])
{
  LoopTasks.Functor(0, [])
}

/** The tie and the callbacks of a channel: the part of what `handleEvent` reads that the loop never changes. */
datatype Statics = Statics(tied: bool, ownerAlive: bool, callbacks: map<EpollEvents.CallbackKind, LoopTasks.Functor>)

/** `statics` records the tie and callbacks of every channel in `cs`. */
ghost predicate StaticsAgree(cs: set<Channel>, statics: map<Channel, Statics>)
  reads cs`tied, cs`ownerAlive, cs`callbacks
{
  forall c | c in cs :: c in statics && statics[c] == Statics(c.tied, c.ownerAlive, c.callbacks)
}

/**
 * `views` are what `handleEvent` is given, channel by channel, when
 * `epoll_wait` returns `r` into a buffer of `capacity` slots and the channels'
 * ties and callbacks are `statics`: one view per delivered event, in delivery
 * order, with the event's observed mask.
 */
predicate Polled(r: WaitResult, capacity: nat, statics: map<Channel, Statics>, views: seq<LoopTasks.ChannelView>)
{
  |views| == (if NumEvents(r, capacity) > 0 then NumEvents(r, capacity) else 0)
  && forall i | 0 <= i < |views| ::
       r.events[i].channel in statics
       && views[i] == LoopTasks.ChannelView(r.events[i].channel.fd, r.events[i].revents,
                                            statics[r.events[i].channel].tied,
                                            statics[r.events[i].channel].ownerAlive,
                                            statics[r.events[i].channel].callbacks)
}

/** The channels named anywhere in `script`. */
function ScriptChannels(script: seq<WaitResult>): set<Channel>
{
  if script == [] then {} else EventChannels(script[0]) + ScriptChannels(script[1..])
}

/** The channels of every result of `script` are among its channels. */
lemma {:induction false} ScriptChannelsHas(script: seq<WaitResult>, i: nat)
  requires i < |script|
  ensures EventChannels(script[i]) <= ScriptChannels(script)
  decreases i
{
  if i > 0 {
    ScriptChannelsHas(script[1..], i - 1);
    assert script[1..][i - 1] == script[i];
  }
}

/** The buffer size before iteration `k` when `epoll_wait` returns the results of `script` in turn. */
function CapacityAt(script: seq<WaitResult>, capacity: nat, k: nat): nat
  requires k <= |script|
{
  if k == 0 then capacity
  else
    var c := CapacityAt(script, capacity, k - 1);
    Registration.NextCapacity(c, NumEvents(script[k - 1], c))
}

/**
 * The bookkeeping of `loop` after `i` iterations over `script`, begun in the
 * task state `start` with a buffer of `cap0` slots: `batches` are the views each
 * iteration dispatched, `capacity` is the buffer size and `state` the task state
 * the cycles reached, none of them ending the loop early.
 */
predicate TurnedTasks(script: seq<WaitResult>, i: nat, statics: map<Channel, Statics>, cap0: nat,
                      start: LoopTasks.TaskState, batches: seq<seq<LoopTasks.ChannelView>>,
                      capacity: nat, state: LoopTasks.TaskState)
{
  i <= |script| && capacity == CapacityAt(script, cap0, i)
  && |batches| == i && (forall k | 0 <= k < i :: Polled(script[k], CapacityAt(script, cap0, k), statics, batches[k]))
  && LoopTasks.RunLoop(start, batches) == (state, i)
}

/**
 * An iteration that polls `script[i]` into the current buffer and then runs
 * one cycle extends the bookkeeping by one batch.
 */
lemma TurnedTasksSnoc(script: seq<WaitResult>, i: nat, statics: map<Channel, Statics>, cap0: nat,
                      start: LoopTasks.TaskState, batches: seq<seq<LoopTasks.ChannelView>>,
                      capacity: nat, state: LoopTasks.TaskState, views: seq<LoopTasks.ChannelView>)
  requires TurnedTasks(script, i, statics, cap0, start, batches, capacity, state)
  requires i < |script| && !state.quit && Polled(script[i], capacity, statics, views)
  ensures TurnedTasks(script, i + 1, statics, cap0, start, batches + [views],
                      Registration.NextCapacity(capacity, NumEvents(script[i], capacity)), LoopTasks.Cycle(state, views))
{
  LoopTasks.RunLoopSnoc(start, batches, views);
  assert forall k | 0 <= k < i :: (batches + [views])[k] == batches[k];
}

/** The views of the channels `cs`, in order. */
ghost function ChannelViews(cs: seq<Channel>): (views: seq<LoopTasks.ChannelView>)
  reads (set i | 0 <= i < |cs| :: cs[i])`revents, (set i | 0 <= i < |cs| :: cs[i])`tied
  reads (set i | 0 <= i < |cs| :: cs[i])`ownerAlive, (set i | 0 <= i < |cs| :: cs[i])`callbacks
  ensures |views| == |cs|
  ensures forall i | 0 <= i < |cs| :: views[i] == cs[i].View()
{
  if cs == [] then [] else ChannelViews(cs[..|cs| - 1]) + [cs[|cs| - 1].View()]
}

/**
 * The `epoll_ctl` calls of `disableAll` then `remove` on a tracked channel: a
 * DEL when it was added; otherwise the ADD with the empty mask that
 * `updateChannel` issues for a kNew or kDeleted channel, then the DEL of `remove`.
 */
function DestroyCtls(wasAdded: bool, fd: int): seq<Registration.CtlCall>
{
  var del := Registration.CtlCall(Registration.CtlDel, fd, EpollEvents.NoneEvent, true);
  if wasAdded then [del] else [Registration.CtlCall(Registration.CtlAdd, fd, EpollEvents.NoneEvent, true), del]
}

class EventLoop {
  const threadId: ThreadId
  const poller: EPoller
  const wakeupFd: int
  var wakeupChannel: Channel?
  var looping: bool
  var quit: bool
  var eventHandling: bool
  var callingPendingFunctors: bool
  var pending: seq<LoopTasks.Functor>
  var activeChannels: seq<Channel>
  var currentActiveChannel: Channel?
  /** The number of `wakeup()` calls. */
  var wakeups: nat
  ghost var log: seq<LoopTasks.Entry>

  ghost function State(): LoopTasks.TaskState
    reads this`pending, this`callingPendingFunctors, this`quit, this`wakeups, this`log
  {
    LoopTasks.TaskState(pending, callingPendingFunctors, quit, wakeups, log)
  }

  /** The EPoller belongs to this loop's thread and every channel it maps belongs to this loop. */
  ghost predicate Valid()
    reads poller, poller.Registered()`index
  {
    poller.ownerThread == threadId && poller.Valid()
    && forall fd | fd in poller.channels :: poller.channels[fd].loop == this
  }

  function IsInLoopThread(caller: ThreadId): bool
  {
    caller == threadId
  }

  /**
   * The constructor: a fresh EPoller, and a wakeup channel on `wakeupFd`
   * whose read callback drains the eventfd and whose reading is enabled.
   */
  constructor(threadId: ThreadId, wakeupFd: int)
    ensures this.threadId == threadId && this.wakeupFd == wakeupFd && fresh(poller)
    ensures Valid()
    ensures wakeupChannel != null && fresh(wakeupChannel)
    ensures wakeupChannel.loop == this && wakeupChannel.fd == wakeupFd
    ensures wakeupChannel.events == EpollEvents.ReadEvent && wakeupChannel.callbacks == map[EpollEvents.ReadCallback := WakeupHandler()]
    ensures wakeupChannel.index == Registration.Added && wakeupChannel.addedToLoop && poller.Tracks(wakeupChannel)
    ensures poller.channels == map[wakeupFd := wakeupChannel]
    ensures poller.kernel == map[wakeupFd := Registration.Interest(EpollEvents.ReadEvent, wakeupChannel as Channel)]
    ensures poller.ctlLog == [Registration.CtlCall(Registration.CtlAdd, wakeupFd, EpollEvents.ReadEvent, true)]
    ensures !looping && !quit && !eventHandling && !callingPendingFunctors
    ensures pending == [] && wakeups == 0 && log == [] && currentActiveChannel == null
  {
    this.threadId := threadId;
    this.wakeupFd := wakeupFd;
    poller := new EPoller(threadId);
    looping := false;
    quit := false;
    eventHandling := false;
    callingPendingFunctors := false;
    pending := [];
    activeChannels := [];
    currentActiveChannel := null;
    wakeups := 0;
    log := [];
    new;
    var ch := new Channel(this, wakeupFd);
    wakeupChannel := ch;
    ch.SetReadCallback(Wrappers.Some(WakeupHandler()));
    ch.EnableReading(threadId);
  }

  /** The destructor: disable and remove the wakeup channel, which can then be destroyed. */
  method Destroy(caller: ThreadId)
    requires caller == threadId && Valid()
    requires wakeupChannel != null && wakeupChannel.loop == this && wakeupChannel.fd == wakeupFd
    requires poller.Tracks(wakeupChannel) && !wakeupChannel.eventHandling
    modifies wakeupChannel`events, wakeupChannel`addedToLoop, wakeupChannel`index
    modifies poller`channels, poller`kernel, poller`ctlLog
    ensures Valid() && wakeupChannel.IsNoneEvent() && wakeupChannel.index == Registration.New
    ensures poller.channels == old(poller.channels) - {wakeupFd} && poller.kernel == old(poller.kernel) - {wakeupFd}
    ensures poller.ctlLog == old(poller.ctlLog) + DestroyCtls(old(wakeupChannel.index) == Registration.Added, wakeupFd)
    ensures wakeupChannel.Destructible(caller)
  {
    wakeupChannel.DisableAll(caller);
    wakeupChannel.Remove(caller);
    poller.HasChannelIffNotNew(wakeupChannel);
  }

  method Wakeup()
    modifies this`wakeups
    ensures wakeups == old(wakeups) + 1
  {
    wakeups := wakeups + 1;
  }

  /** `quit`. */
  method Quit(caller: ThreadId)
    modifies this`quit, this`wakeups
    ensures State() == LoopTasks.QuitLoop(old(State()), IsInLoopThread(caller))
  {
    quit := true;
    if !IsInLoopThread(caller) {
      Wakeup();
    }
  }

  /** `queueInLoop`. */
  method QueueInLoop(f: LoopTasks.Functor, caller: ThreadId)
    modifies this`pending, this`wakeups
    ensures State() == LoopTasks.QueueInLoop(old(State()), f, IsInLoopThread(caller))
  {
    pending := pending + [f];
    if !IsInLoopThread(caller) || callingPendingFunctors {
      Wakeup();
    }
  }

  /** `runInLoop`. */
  method RunInLoop(f: LoopTasks.Functor, caller: ThreadId)
    modifies this`pending, this`wakeups, this`quit, this`log
    ensures State() == LoopTasks.RunInLoop(old(State()), f, IsInLoopThread(caller))
    decreases f, |f.body| + 2
  {
    if IsInLoopThread(caller) {
      RunFunctor(f);
    } else {
      QueueInLoop(f, caller);
    }
  }

  /** Calling a task on the loop thread. */
  method RunFunctor(f: LoopTasks.Functor)
    modifies this`pending, this`wakeups, this`quit, this`log
    ensures State() == LoopTasks.Exec(old(State()), f)
    decreases f, |f.body| + 1
  {
    log := log + [LoopTasks.Ran(f.id)];
    PerformBody(f);
  }

  /** Calling a callback of channel descriptor `fd` on the loop thread. */
  method FireCallback(fd: int, kind: EpollEvents.CallbackKind, f: LoopTasks.Functor)
    modifies this`pending, this`wakeups, this`quit, this`log
    ensures State() == LoopTasks.Fire(old(State()), fd, kind, f)
  {
    log := log + [LoopTasks.Fired(fd, kind)];
    PerformBody(f);
  }

  /** The loop operations of a task or callback body, in order, on the loop thread. */
  method PerformBody(f: LoopTasks.Functor)
    modifies this`pending, this`wakeups, this`quit, this`log
    ensures State() == LoopTasks.PerformUpTo(old(State()), f, |f.body|)
    decreases f, |f.body|
  {
    for k := 0 to |f.body|
      invariant State() == LoopTasks.PerformUpTo(old(State()), f, k)
    {
      match f.body[k]
      case Queue(g) => QueueInLoop(g, threadId);
      case Run(g) => RunInLoop(g, threadId);
      case Quit => Quit(threadId);
    }
  }

  /** `doPendingFunctors`. */
  method DoPendingFunctors()
    modifies this`pending, this`callingPendingFunctors, this`wakeups, this`quit, this`log
    ensures State() == LoopTasks.Drain(old(State()))
  {
    callingPendingFunctors := true;
    var functors := pending;
    pending := [];
    ghost var start := State();
    for i := 0 to |functors|
      invariant State() == LoopTasks.RunBatch(start, functors[..i])
    {
      RunFunctor(functors[i]);
      assert functors[..i + 1][..i] == functors[..i];
    }
    assert functors[..|functors|] == functors;
    callingPendingFunctors := false;
  }

  /** `updateChannel`: only for this loop's channels, on the loop thread. */
  method UpdateChannel(c: Channel, caller: ThreadId)
    requires c.loop == this && caller == threadId
    requires Valid() && poller.Tracks(c)
    modifies poller`channels, poller`kernel, poller`ctlLog, c`index
    ensures Valid() && poller.Tracks(c)
    ensures poller.UpdatedBy(c, old(c.index), old(poller.channels), old(poller.kernel), old(poller.ctlLog))
  {
    poller.UpdateChannel(c);
  }

  /** `removeChannel`: only for this loop's channels, on the loop thread. */
  method RemoveChannel(c: Channel, caller: ThreadId)
    requires c.loop == this && caller == threadId
    requires Valid() && poller.Tracks(c)
    modifies poller`channels, poller`kernel, poller`ctlLog, c`index
    ensures Valid() && poller.Tracks(c)
    ensures poller.RemovedBy(c, old(c.index), old(poller.channels), old(poller.kernel), old(poller.ctlLog))
    ensures c.fd !in poller.channels && c.fd !in poller.kernel
  {
    poller.RemoveChannel(c);
  }

  /** `hasChannel`: only for this loop's channels, on the loop thread. */
  function HasChannel(c: Channel, caller: ThreadId): bool
    requires c.loop == this && caller == threadId && poller.ownerThread == threadId
    reads poller
  {
    poller.HasChannel(c, caller)
  }

  /** The active channels, each dispatched in turn with `currentActiveChannel` pointing at it, while `eventHandling` is raised. */
  method DispatchActive(ghost views: seq<LoopTasks.ChannelView>)
    requires eventHandling
    requires |views| == |activeChannels|
    requires forall i | 0 <= i < |activeChannels| :: activeChannels[i].loop == this && activeChannels[i].View() == views[i]
    modifies this`currentActiveChannel, this`pending, this`wakeups, this`quit, this`log
    modifies (set i | 0 <= i < |activeChannels| :: activeChannels[i])`eventHandling
    ensures State() == LoopTasks.DispatchAll(old(State()), views)
  {
    for i := 0 to |activeChannels|
      invariant forall j | 0 <= j < |activeChannels| :: activeChannels[j].View() == views[j]
      invariant State() == LoopTasks.DispatchAll(old(State()), views[..i])
    {
      currentActiveChannel := activeChannels[i];
      activeChannels[i].HandleEvent();
      assert views[..i + 1][..i] == views[..i];
    }
    assert views[..|activeChannels|] == views;
  }

  /** After the poll: raise `eventHandling`, dispatch the active channels, lower it, then drain. */
  method DispatchAndDrain(ghost views: seq<LoopTasks.ChannelView>)
    requires |views| == |activeChannels|
    requires forall i | 0 <= i < |activeChannels| :: activeChannels[i].loop == this && activeChannels[i].View() == views[i]
    modifies this`eventHandling, this`currentActiveChannel
    modifies this`pending, this`callingPendingFunctors, this`wakeups, this`quit, this`log
    modifies (set i | 0 <= i < |activeChannels| :: activeChannels[i])`eventHandling
    ensures !eventHandling && currentActiveChannel == null
    ensures State() == LoopTasks.Cycle(old(State()), views)
  {
    eventHandling := true;
    DispatchActive(views);
    currentActiveChannel := null;
    eventHandling := false;
    DoPendingFunctors();
  }

  /** The poll of one iteration: clear the active list, then `epoll` into it. */
  method Poll(r: WaitResult)
    requires Valid() && poller.Deliverable(r)
    modifies this`activeChannels, poller`capacity, EventChannels(r)`revents
    ensures Valid()
    ensures var n := NumEvents(r, old(poller.capacity));
      poller.capacity == Registration.NextCapacity(old(poller.capacity), n)
      && |activeChannels| == (if n > 0 then n else 0)
    ensures forall i | 0 <= i < |activeChannels| ::
              activeChannels[i] == r.events[i].channel && activeChannels[i].revents == r.events[i].revents
              && activeChannels[i].loop == this && activeChannels[i] in EventChannels(r)
    ensures r.Ready? ==> forall i | 0 <= i < |r.events| && NumEvents(r, old(poller.capacity)) <= i ::
              r.events[i].channel.revents == old(r.events[i].channel.revents)
  {
    activeChannels := [];
    poller.DeliveredAreRegistered(r);
    activeChannels := poller.Epoll(r);
    forall i | 0 <= i < |activeChannels|
      ensures activeChannels[i].loop == this && activeChannels[i] in EventChannels(r)
    {
      assert activeChannels[i] in EventChannels(r);
    }
  }

  /**
   * One iteration of `loop`: poll, dispatch in order, drain. `views` are
   * the views dispatched; `statics` records the channels' ties and callbacks.
   */
  method Iterate(r: WaitResult, ghost statics: map<Channel, Statics>) returns (ghost views: seq<LoopTasks.ChannelView>)
    requires Valid() && poller.Deliverable(r) && StaticsAgree(EventChannels(r), statics)
    modifies this`activeChannels, this`eventHandling, this`currentActiveChannel
    modifies this`pending, this`callingPendingFunctors, this`wakeups, this`quit, this`log
    modifies poller`capacity, EventChannels(r)`revents, EventChannels(r)`eventHandling
    ensures Valid() && !eventHandling && currentActiveChannel == null
    ensures poller.capacity == Registration.NextCapacity(old(poller.capacity), NumEvents(r, old(poller.capacity)))
    ensures Polled(r, old(poller.capacity), statics, views) && State() == LoopTasks.Cycle(old(State()), views)
  {
    ghost var capacity := poller.capacity;
    Poll(r);
    views := ChannelViews(activeChannels);
    assert StaticsAgree(EventChannels(r), statics);
    DispatchAndDrain(views);
  }

  /**
   * The state after `i` turns of `loop` over `script` from the task state
   * `start` and the buffer size `cap0`: the loop is valid, the rest of the
   * script can still be delivered, and the buffer size and the task state are
   * those TurnedTasks relates to the dispatched `batches`.
   */
  ghost predicate Turned(script: seq<WaitResult>, i: nat, statics: map<Channel, Statics>, cap0: nat,
                         start: LoopTasks.TaskState, batches: seq<seq<LoopTasks.ChannelView>>)
    reads this`pending, this`callingPendingFunctors, this`quit, this`wakeups, this`log
    reads poller, poller.Registered()`index, poller`kernel
  {
    Valid() && (forall j | 0 <= j < |script| :: poller.Deliverable(script[j]))
    && TurnedTasks(script, i, statics, cap0, start, batches, poller.capacity, State())
  }

  /**
   * One turn of the `while` loop of `loop`: the iteration for `script[i]`,
   * appending the views it dispatched to those of the earlier turns.
   */
  method Turn(script: seq<WaitResult>, i: nat, ghost chans: set<Channel>, ghost statics: map<Channel, Statics>, ghost cap0: nat,
              ghost start: LoopTasks.TaskState, ghost batches: seq<seq<LoopTasks.ChannelView>>)
    returns (ghost batches': seq<seq<LoopTasks.ChannelView>>)
    requires i < |script| && !quit && EventChannels(script[i]) <= chans && StaticsAgree(chans, statics)
    requires Turned(script, i, statics, cap0, start, batches)
    modifies this`activeChannels, this`eventHandling, this`currentActiveChannel
    modifies this`pending, this`callingPendingFunctors, this`wakeups, this`quit, this`log
    modifies poller`capacity, EventChannels(script[i])`revents, EventChannels(script[i])`eventHandling
    ensures Turned(script, i + 1, statics, cap0, start, batches') && StaticsAgree(chans, statics)
  {
    ghost var views := Iterate(script[i], statics);
    assert forall c | c in chans :: c.tied == old(c.tied) && c.ownerAlive == old(c.ownerAlive) && c.callbacks == old(c.callbacks);
    TurnedTasksSnoc(script, i, statics, cap0, start, batches, old(poller.capacity), old(State()), views);
    batches' := batches + [views];
  }

  /**
   * The `while` loop of `loop`, entered with the quit flag clear: turns until
   * the flag is set or the script runs out, then, if it was set, leave.
   */
  method Turns(script: seq<WaitResult>, ghost statics: map<Channel, Statics>, ghost cap0: nat,
               ghost start: LoopTasks.TaskState)
    returns (ghost batches: seq<seq<LoopTasks.ChannelView>>)
    requires looping && Turned(script, 0, statics, cap0, start, [])
    requires StaticsAgree(ScriptChannels(script), statics)
    modifies this`looping, this`activeChannels, this`eventHandling, this`currentActiveChannel
    modifies this`pending, this`callingPendingFunctors, this`wakeups, this`quit, this`log
    modifies poller`capacity, ScriptChannels(script)`revents, ScriptChannels(script)`eventHandling
    ensures Turned(script, |batches|, statics, cap0, start, batches)
    ensures |batches| < |script| ==> quit
    ensures looping == !quit
  {
    ghost var chans := ScriptChannels(script);
    batches := [];
    var i := 0;
    while !quit
      invariant looping && i <= |script| && |batches| == i && Turned(script, i, statics, cap0, start, batches)
      invariant StaticsAgree(chans, statics)
      decreases |script| - i
    {
      if i == |script| {
        return;
      }
      ScriptChannelsHas(script, i);
      batches := Turn(script, i, chans, statics, cap0, start, batches);
      i := i + 1;
    }
    looping := false;
  }

  /**
   * `loop`: on the loop thread and not already looping; clear the quit flag,
   * then run iterations while it stays clear, one per result of `script`.
   * `batches` are the views each iteration dispatched, given the ties and
   * callbacks `statics` of the channels. If the script runs out first the
   * loop is still blocked in `epoll_wait` and still looping.
   */
  method Loop(caller: ThreadId, script: seq<WaitResult>, ghost statics: map<Channel, Statics>)
    returns (ghost batches: seq<seq<LoopTasks.ChannelView>>)
    requires caller == threadId && !looping && Valid()
    requires forall i | 0 <= i < |script| :: poller.Deliverable(script[i])
    requires StaticsAgree(ScriptChannels(script), statics)
    modifies this`looping, this`activeChannels, this`eventHandling, this`currentActiveChannel
    modifies this`pending, this`callingPendingFunctors, this`wakeups, this`quit, this`log
    modifies poller`capacity, ScriptChannels(script)`revents, ScriptChannels(script)`eventHandling
    ensures Turned(script, |batches|, statics, old(poller.capacity), old(State()).(quit := false), batches)
    ensures |batches| < |script| ==> quit
    ensures looping == !quit
  {
    ghost var start := State().(quit := false);
    looping := true;
    quit := false;
    batches := Turns(script, statics, poller.capacity, start);
  }
}
