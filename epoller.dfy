/**
 * EPoller (src/net/EPoller.cpp, include/net/EPoller.h): the descriptor to
 * Channel map, the registration tags, and the event buffer of `epoll_wait`.
 *
 * The kernel's interest list is the ghost map `kernel` and every `epoll_ctl`
 * call is appended to the ghost log `ctlLog` with whether the kernel accepted
 * it. One `epoll_wait` is an oracle value: the events the kernel has ready, in
 * delivery order, or a failure.
 */

/** One event record as `epoll_wait` fills it in: the registered pointer and the observed mask. */
datatype ReadyEvent = ReadyEvent(channel: Channel, revents: EpollEvents.Mask)

/** The outcome of one `epoll_wait`. */
datatype WaitResult = Ready(events: seq<ReadyEvent>) | Failed(errno: int)

/** The return value of `epoll_wait` for a buffer of `capacity` slots. */
function NumEvents(r: WaitResult, capacity: nat): int
{
  match r
  case Ready(events) => Registration.Delivered(|events|, capacity)
  case Failed(_) => -1
}

/** The channels named by the events of `r`. */
function EventChannels(r: WaitResult): set<Channel>
{
  match r
  case Ready(events) => set i | 0 <= i < |events| :: events[i].channel
  case Failed(_) => {}
}

class EPoller {
  /** The thread of the owning EventLoop. */
  const ownerThread: ThreadId
  var channels: map<int, Channel>
  /** The number of slots in the event buffer `m_events`. */
  var capacity: nat
  ghost var kernel: map<int, Registration.Interest<Channel>>
  ghost var ctlLog: seq<Registration.CtlCall>

  constructor(ownerThread: ThreadId)
    ensures this.ownerThread == ownerThread
    ensures channels == map[] && capacity == Registration.InitEventListSize && kernel == map[] && ctlLog == []
    ensures Valid()
  {
    this.ownerThread := ownerThread;
    channels := map[];
    capacity := Registration.InitEventListSize;
    kernel := map[];
    ctlLog := [];
  }

  /** The channels in the map. */
  ghost function Registered(): set<Channel>
    reads this
  {
    channels.Values
  }

  /**
   * Each map entry is keyed by its channel's descriptor and its tag agrees
   * with the kernel, every registered descriptor belongs to a mapped channel
   * that the kernel hands back, and the buffer has a reachable size.
   */
  ghost predicate Valid()
    reads this, Registered()`index
  {
    Registration.IsBufferSize(capacity)
    && (forall fd | fd in channels ::
          channels[fd].fd == fd && Registration.Consistent(channels[fd].index, true, fd in kernel))
    && (forall fd | fd in kernel :: fd in channels && kernel[fd].ptr == channels[fd])
  }

  /**
   * Channel `c` is the one this EPoller knows for its descriptor: mapped iff
   * its tag is not kNew. With one channel per descriptor this holds for
   * every channel of the loop.
   */
  ghost predicate Tracks(c: Channel)
    reads this, c`index
  {
    if c.index == Registration.New then c.fd !in channels else c.fd in channels && channels[c.fd] == c
  }

  /** `hasChannel`: the map holds `c` itself under its descriptor. */
  function HasChannel(c: Channel, caller: ThreadId): bool
    requires caller == ownerThread
    reads this
  {
    c.fd in channels && channels[c.fd] == c
  }

  /** For a tracked channel `hasChannel` answers whether its tag is not kNew. */
  lemma HasChannelIffNotNew(c: Channel)
    requires Valid() && Tracks(c)
    ensures HasChannel(c, ownerThread) <==> c.index != Registration.New
    ensures HasChannel(c, ownerThread) ==> c.index == Registration.Added || c.index == Registration.Deleted
  {
  }

  /** `update(operation, channel)`: one `epoll_ctl` with the channel's mask and pointer. */
  method Ctl(op: Registration.CtlOp, c: Channel)
    modifies this`kernel, this`ctlLog
    ensures var r := Registration.Ctl(old(kernel), op, c.fd, c.events, c);
      kernel == r.0 && ctlLog == old(ctlLog) + [Registration.CtlCall(op, c.fd, c.events, r.1)]
  {
    ghost var r := Registration.Ctl(kernel, op, c.fd, c.events, c);
    kernel := r.0;
    ctlLog := ctlLog + [Registration.CtlCall(op, c.fd, c.events, r.1)];
  }

  /**
   * The outcome of `updateChannel(c)` from the given tag, map, kernel list and
   * log: the tag, map entry and kernel operation UpdateStep prescribes, which
   * the kernel accepted.
   */
  ghost predicate UpdatedBy(c: Channel, oldIndex: int, oldChannels: map<int, Channel>,
                            oldKernel: map<int, Registration.Interest<Channel>>, oldLog: seq<Registration.CtlCall>)
    reads this, c`index, c`events
  {
    var step := Registration.UpdateStep(oldIndex, EpollEvents.IsNoneEvent(c.events));
    step.op.Some? && c.index == step.next
    && channels == Registration.UpdateMap(oldChannels, oldIndex, c.fd, c)
    && kernel == Registration.Ctl(oldKernel, step.op.value, c.fd, c.events, c).0
    && ctlLog == oldLog + [Registration.CtlCall(step.op.value, c.fd, c.events, true)]
  }

  /** `updateChannel`. */
  method UpdateChannel(c: Channel)
    requires Valid() && Tracks(c)
    modifies this`channels, this`kernel, this`ctlLog, c`index
    ensures Valid() && Tracks(c)
    ensures UpdatedBy(c, old(c.index), old(channels), old(kernel), old(ctlLog))
    ensures c.index == Registration.Added ==> c.fd in kernel && kernel[c.fd] == Registration.Interest(c.events, c)
    ensures c.index != Registration.Added ==> c.fd !in kernel
  {
    var index := c.index;
    if index == Registration.New || index == Registration.Deleted {
      if index == Registration.New {
        channels := channels[c.fd := c];
      }
      c.index := Registration.Added;
      Ctl(Registration.CtlAdd, c);
    } else {
      if c.IsNoneEvent() {
        Ctl(Registration.CtlDel, c);
        c.index := Registration.Deleted;
      } else {
        Ctl(Registration.CtlMod, c);
      }
    }
  }

  /**
   * The outcome of `removeChannel(c)` from the given tag, map, kernel list and
   * log: the entry is gone, the tag is kNew, and a DEL was issued, and
   * accepted, exactly when the tag was kAdded.
   */
  ghost predicate RemovedBy(c: Channel, oldIndex: int, oldChannels: map<int, Channel>,
                            oldKernel: map<int, Registration.Interest<Channel>>, oldLog: seq<Registration.CtlCall>)
    reads this, c`index, c`events
  {
    var step := Registration.RemoveStep(oldIndex);
    c.index == step.next && channels == oldChannels - {c.fd}
    && (step.op.None? ==> kernel == oldKernel && ctlLog == oldLog)
    && (step.op.Some? ==>
          kernel == oldKernel - {c.fd}
          && ctlLog == oldLog + [Registration.CtlCall(Registration.CtlDel, c.fd, c.events, true)])
  }

  /** `removeChannel`. */
  method RemoveChannel(c: Channel)
    requires Valid() && Tracks(c)
    modifies this`channels, this`kernel, this`ctlLog, c`index
    ensures Valid() && Tracks(c)
    ensures RemovedBy(c, old(c.index), old(channels), old(kernel), old(ctlLog))
    ensures c.fd !in channels && c.fd !in kernel
  {
    channels := channels - {c.fd};
    if c.index == Registration.Added {
      Ctl(Registration.CtlDel, c);
    }
    c.index := Registration.New;
  }

  /** What the kernel can report: registered channels, each at most once, with the pointer it was given. */
  ghost predicate Deliverable(r: WaitResult)
    reads this`kernel
  {
    r.Ready? ==>
      (forall i | 0 <= i < |r.events| ::
         r.events[i].channel.fd in kernel && kernel[r.events[i].channel.fd].ptr == r.events[i].channel)
      && (forall i, j | 0 <= i < j < |r.events| :: r.events[i].channel != r.events[j].channel)
  }

  /** Under Valid, the channels the kernel reports are mapped ones. */
  lemma DeliveredAreRegistered(r: WaitResult)
    requires Valid() && Deliverable(r)
    ensures EventChannels(r) <= Registered()
  {
    if r.Ready? {
      forall c | c in EventChannels(r)
        ensures c in Registered()
      {
        var i :| 0 <= i < |r.events| && r.events[i].channel == c;
        assert channels[c.fd] == c;
      }
    }
  }

  /**
   * `fillActiveChannels`: for the first `n` events, stamp the observed mask
   * on the channel and append the channel, in delivery order.
   *
   * The source appends to the caller's list with `push_back`; here the
   * result is a fresh sequence. The two agree because `loop`, the only
   * caller, clears its active list before every poll.
   */
  method FillActiveChannels(events: seq<ReadyEvent>, n: nat) returns (active: seq<Channel>)
    requires n <= |events|
    requires forall i, j | 0 <= i < j < |events| :: events[i].channel != events[j].channel
    modifies (set i | 0 <= i < n :: events[i].channel)`revents
    ensures |active| == n
    ensures forall i | 0 <= i < n :: active[i] == events[i].channel && active[i].revents == events[i].revents
  {
    active := [];
    for i := 0 to n
      invariant |active| == i
      invariant forall j | 0 <= j < i :: active[j] == events[j].channel && active[j].revents == events[j].revents
    {
      var c := events[i].channel;
      c.SetRevents(events[i].revents);
      active := active + [c];
    }
  }

  /**
   * `epoll`: wait with a buffer of `capacity` slots; on a positive count fill
   * the active channels and double the buffer if the batch filled it; on zero
   * or an error deliver nothing and keep the buffer.
   */
  method Epoll(r: WaitResult) returns (active: seq<Channel>)
    requires Valid() && Deliverable(r)
    modifies this`capacity, EventChannels(r)`revents
    ensures Valid()
    ensures var n := NumEvents(r, old(capacity));
      capacity == Registration.NextCapacity(old(capacity), n)
      && |active| == (if n > 0 then n else 0)
      && forall i | 0 <= i < |active| :: active[i] == r.events[i].channel && active[i].revents == r.events[i].revents
    ensures r.Ready? ==> forall i | 0 <= i < |r.events| && NumEvents(r, old(capacity)) <= i ::
              r.events[i].channel.revents == old(r.events[i].channel.revents)
  {
    var n := NumEvents(r, capacity);
    active := [];
    if n > 0 {
      DeliveredAreRegistered(r);
      active := FillActiveChannels(r.events, n);
      Registration.NextCapacityIsBufferSize(capacity, n);
      if n == capacity {
        capacity := capacity * 2;
      }
    }
  }
}
