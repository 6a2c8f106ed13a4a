/**
 * The registration state machine of EPoller (src/net/EPoller.cpp): the index
 * tag a Channel carries (kNew, kAdded, kDeleted), the kernel operation each
 * call issues, the kernel's own rules for `epoll_ctl`, and the growth of the
 * event buffer handed to `epoll_wait`.
 */
module Registration {

  import opened EpollEvents
  import opened Wrappers

  /** The index tags of a Channel. */
  const New: int := -1
  const Added: int := 1
  const Deleted: int := 2

  /** EPOLL_CTL_ADD, EPOLL_CTL_MOD and EPOLL_CTL_DEL. */
  datatype CtlOp = CtlAdd | CtlMod | CtlDel

  /** What a registration call does: the kernel operation it issues, if any, and the next tag. */
  datatype Step = Step(op: Option<CtlOp>, next: int)

  /**
   * `updateChannel`: a channel that is new or deleted is added to the kernel
   * and tagged kAdded; an added channel with an empty mask is deleted from the
   * kernel and tagged kDeleted; otherwise its interest is modified and its tag
   * left as it is.
   */
  function UpdateStep(index: int, noneEvent: bool): Step
  {
    if index == New || index == Deleted then Step(Some(CtlAdd), Added)
    else if noneEvent then Step(Some(CtlDel), Deleted)
    else Step(Some(CtlMod), index)
  }

  /** `removeChannel`: a kernel DEL only when the channel is added; the tag goes back to kNew. */
  function RemoveStep(index: int): Step
  {
    Step(if index == Added then Some(CtlDel) else None, New)
  }

  /** The descriptor-to-channel map after `updateChannel`: only a new channel is inserted. */
  function UpdateMap<T>(channels: map<int, T>, index: int, fd: int, channel: T): map<int, T>
  {
    if index == New then channels[fd := channel] else channels
  }

  /** A kernel interest entry: the requested mask and the pointer handed back with each event. */
  datatype Interest<T> = Interest(events: Mask, ptr: T)

  /** One `epoll_ctl` call as issued, and whether the kernel accepted it. */
  datatype CtlCall = CtlCall(op: CtlOp, fd: int, events: Mask, ok: bool)

  /**
   * Linux's `epoll_ctl` on the interest list: ADD fails (EEXIST) on a
   * registered descriptor, MOD and DEL fail (ENOENT) on an unregistered one,
   * and a failed call leaves the list as it was.
   */
  function Ctl<T>(kernel: map<int, Interest<T>>, op: CtlOp, fd: int, events: Mask, ptr: T)
    : (r: (map<int, Interest<T>>, bool))
    ensures r.1 <==> (op == CtlAdd <==> fd !in kernel)
    ensures !r.1 ==> r.0 == kernel
    ensures r.1 && op != CtlDel ==> r.0 == kernel[fd := Interest(events, ptr)]
    ensures r.1 && op == CtlDel ==> r.0 == kernel - {fd}
  {
    match op
    case CtlAdd => if fd in kernel then (kernel, false) else (kernel[fd := Interest(events, ptr)], true)
    case CtlMod => if fd !in kernel then (kernel, false) else (kernel[fd := Interest(events, ptr)], true)
    case CtlDel => if fd !in kernel then (kernel, false) else (kernel - {fd}, true)
  }

  /**
   * The invariant tying a channel's tag to EPoller's map and to the kernel:
   * the tag is one of the three, the channel is in the map iff its tag is
   * not kNew, and its descriptor is in the kernel iff its tag is kAdded.
   */
  predicate Consistent(index: int, mapped: bool, inKernel: bool)
  {
    (index == New || index == Added || index == Deleted)
    && (mapped <==> index != New)
    && (inKernel <==> index == Added)
  }

  /** Whether the kernel accepts `op` on a descriptor that is or is not registered. */
  function Accepts(op: Option<CtlOp>, inKernel: bool): bool
  {
    match op
    case None => true
    case Some(CtlAdd) => !inKernel
    case Some(_) => inKernel
  }

  /** Whether the descriptor is registered after `op` succeeds. */
  function InKernelAfter(op: Option<CtlOp>, inKernel: bool): bool
  {
    match op
    case None => inKernel
    case Some(CtlDel) => false
    case Some(_) => true
  }

  /** From a consistent state, `updateChannel` issues an operation the kernel accepts and stays consistent. */
  lemma UpdatePreservesConsistency(index: int, mapped: bool, inKernel: bool, noneEvent: bool)
    requires Consistent(index, mapped, inKernel)
    ensures var st := UpdateStep(index, noneEvent);
      st.op.Some? && Accepts(st.op, inKernel)
      && Consistent(st.next, mapped || index == New, InKernelAfter(st.op, inKernel))
  {
  }

  /** From a consistent state, `removeChannel` issues an operation the kernel accepts and the channel leaves both. */
  lemma RemovePreservesConsistency(index: int, mapped: bool, inKernel: bool)
    requires Consistent(index, mapped, inKernel)
    ensures var st := RemoveStep(index);
      Accepts(st.op, inKernel) && !InKernelAfter(st.op, inKernel)
      && Consistent(st.next, false, InKernelAfter(st.op, inKernel))
  {
  }

  /** The registration calls a channel can make. */
  datatype Call = UpdateCall(noneEvent: bool) | RemoveCall

  /** One channel's registration: its tag, map and kernel membership, and the number of rejected ctl calls. */
  datatype Registration = Registration(index: int, mapped: bool, inKernel: bool, rejected: nat)

  function Perform(r: Registration, call: Call): Registration
  {
    var st := match call
      case UpdateCall(noneEvent) => UpdateStep(r.index, noneEvent)
      case RemoveCall => RemoveStep(r.index);
    var mapped := match call
      case UpdateCall(_) => r.mapped || r.index == New
      case RemoveCall => false;
    var ok := Accepts(st.op, r.inKernel);
    Registration(st.next, mapped, if ok then InKernelAfter(st.op, r.inKernel) else r.inKernel,
                 if ok then r.rejected else r.rejected + 1)
  }

  /** A fresh channel (tag kNew, in neither the map nor the kernel) after the calls `calls`. */
  function RunCalls(calls: seq<Call>): Registration
  {
    if calls == [] then Registration(New, false, false, 0)
    else Perform(RunCalls(calls[..|calls| - 1]), calls[|calls| - 1])
  }

  /**
   * Whatever sequence of update and remove calls a channel makes, the kernel
   * never rejects one, and the tag agrees with map and kernel membership.
   */
  lemma {:induction false} RunCallsConsistent(calls: seq<Call>)
    ensures var r := RunCalls(calls); Consistent(r.index, r.mapped, r.inKernel) && r.rejected == 0
  {
    if calls != [] {
      var prev := RunCalls(calls[..|calls| - 1]);
      RunCallsConsistent(calls[..|calls| - 1]);
      match calls[|calls| - 1]
      case UpdateCall(noneEvent) => UpdatePreservesConsistency(prev.index, prev.mapped, prev.inKernel, noneEvent);
      case RemoveCall => RemovePreservesConsistency(prev.index, prev.mapped, prev.inKernel);
    }
  }

  /** kInitEventListSize: the initial number of slots in the event buffer. */
  const InitEventListSize: nat := 16

  /** How many events one `epoll_wait` delivers when `ready` are pending and the buffer has `capacity` slots. */
  function Delivered(ready: nat, capacity: nat): (n: nat)
    ensures n <= ready && n <= capacity
    ensures n == ready || n == capacity
  {
    if ready <= capacity then ready else capacity
  }

  /** The buffer size after an `epoll_wait` that returned `numEvents`: doubled exactly when the batch filled it. */
  function NextCapacity(capacity: nat, numEvents: int): nat
  {
    if numEvents > 0 && numEvents == capacity then 2 * capacity else capacity
  }

  /** A size the buffer can reach: 16 doubled some number of times. */
  predicate IsBufferSize(capacity: nat)
    decreases capacity
  {
    capacity == InitEventListSize || (capacity > InitEventListSize && capacity % 2 == 0 && IsBufferSize(capacity / 2))
  }

  /** Growth keeps the buffer at 16 times a power of two, never shrinks it, and happens only on a full batch. */
  lemma NextCapacityIsBufferSize(capacity: nat, numEvents: int)
    requires IsBufferSize(capacity)
    ensures IsBufferSize(NextCapacity(capacity, numEvents))
    ensures NextCapacity(capacity, numEvents) >= capacity
    ensures NextCapacity(capacity, numEvents) != capacity <==> numEvents > 0 && numEvents == capacity
  {
    if numEvents > 0 && numEvents == capacity {
      assert (2 * capacity) / 2 == capacity;
    }
  }

  /** The buffer size after a series of `epoll_wait` results, starting from the initial size. */
  function CapacityAfter(results: seq<int>): nat
  {
    if results == [] then InitEventListSize
    else NextCapacity(CapacityAfter(results[..|results| - 1]), results[|results| - 1])
  }

  lemma {:induction false} CapacityAfterIsBufferSize(results: seq<int>)
    ensures IsBufferSize(CapacityAfter(results)) && CapacityAfter(results) >= InitEventListSize
  {
    if results != [] {
      CapacityAfterIsBufferSize(results[..|results| - 1]);
      NextCapacityIsBufferSize(CapacityAfter(results[..|results| - 1]), results[|results| - 1]);
    }
  }
}
