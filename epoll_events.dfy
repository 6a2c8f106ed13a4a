/**
 * Event masks of a Channel and the mapping from observed events to callbacks
 * (include/net/Channel.h, src/net/Channel.cpp).
 *
 * Masks are the 32-bit `events` field of Linux's `struct epoll_event`; the
 * bit values are those of Linux's <sys/epoll.h>.
 */
module EpollEvents {

  type Mask = bv32

  const EpollIn: Mask := 0x001
  const EpollPri: Mask := 0x002
  const EpollOut: Mask := 0x004
  const EpollErr: Mask := 0x008
  const EpollHup: Mask := 0x010
  const EpollRdHup: Mask := 0x2000

  /** Channel::kNoneEvent, kReadEvent and kWriteEvent. */
  const NoneEvent: Mask := 0
  const ReadEvent: Mask := EpollIn | EpollPri
  const WriteEvent: Mask := EpollOut

  predicate IsNoneEvent(events: Mask) { events == NoneEvent }
  predicate IsReading(events: Mask) { events & ReadEvent != 0 }
  predicate IsWriting(events: Mask) { events & WriteEvent != 0 }

  /** The mask after `enableReading`: both read bits set, every other bit as before. */
  function EnableReading(events: Mask): (r: Mask)
    ensures r & ReadEvent == ReadEvent
    ensures r & !ReadEvent == events & !ReadEvent
  {
    events | ReadEvent
  }

  /** The mask after `disableReading`: both read bits clear, every other bit as before. */
  function DisableReading(events: Mask): (r: Mask)
    ensures r & ReadEvent == NoneEvent
    ensures r & !ReadEvent == events & !ReadEvent
  {
    events & !ReadEvent
  }

  /** The mask after `enableWriting`: the write bit set, every other bit as before. */
  function EnableWriting(events: Mask): (r: Mask)
    ensures r & WriteEvent == WriteEvent
    ensures r & !WriteEvent == events & !WriteEvent
  {
    events | WriteEvent
  }

  /** The mask after `disableWriting`: the write bit clear, every other bit as before. */
  function DisableWriting(events: Mask): (r: Mask)
    ensures r & WriteEvent == NoneEvent
    ensures r & !WriteEvent == events & !WriteEvent
  {
    events & !WriteEvent
  }

  /** What `isReading`, `isWriting` and `isNoneEvent` report after each change. */
  lemma EnableReadingQueries(events: Mask)
    ensures IsReading(EnableReading(events)) && !IsNoneEvent(EnableReading(events))
    ensures IsWriting(EnableReading(events)) == IsWriting(events)
  {
  }

  lemma DisableReadingQueries(events: Mask)
    ensures !IsReading(DisableReading(events))
    ensures IsWriting(DisableReading(events)) == IsWriting(events)
  {
  }

  lemma EnableWritingQueries(events: Mask)
    ensures IsWriting(EnableWriting(events)) && !IsNoneEvent(EnableWriting(events))
    ensures IsReading(EnableWriting(events)) == IsReading(events)
  {
  }

  lemma DisableWritingQueries(events: Mask)
    ensures !IsWriting(DisableWriting(events))
    ensures IsReading(DisableWriting(events)) == IsReading(events)
  {
  }

  /** The five interest-changing calls of a Channel. */
  datatype InterestChange = ReadingOn | ReadingOff | WritingOn | WritingOff | AllOff

  function Apply(events: Mask, change: InterestChange): Mask
  {
    match change
    case ReadingOn => EnableReading(events)
    case ReadingOff => DisableReading(events)
    case WritingOn => EnableWriting(events)
    case WritingOff => DisableWriting(events)
    case AllOff => NoneEvent
  }

  /** The mask after performing `changes` in order, starting from `events`. */
  function ApplyAll(events: Mask, changes: seq<InterestChange>): Mask
  {
    if changes == [] then events
    else Apply(ApplyAll(events, changes[..|changes| - 1]), changes[|changes| - 1])
  }

  /** Reference meaning: reading is wanted iff the last call that concerns reading turned it on. */
  function ReadingWanted(changes: seq<InterestChange>): bool
  {
    if changes == [] then false
    else
      match changes[|changes| - 1]
      case ReadingOn => true
      case ReadingOff => false
      case AllOff => false
      case _ => ReadingWanted(changes[..|changes| - 1])
  }

  /** Reference meaning: writing is wanted iff the last call that concerns writing turned it on. */
  function WritingWanted(changes: seq<InterestChange>): bool
  {
    if changes == [] then false
    else
      match changes[|changes| - 1]
      case WritingOn => true
      case WritingOff => false
      case AllOff => false
      case _ => WritingWanted(changes[..|changes| - 1])
  }

  /** The mask that the flags say should be requested. */
  function FlagsMask(reading: bool, writing: bool): Mask
  {
    (if reading then ReadEvent else NoneEvent) | (if writing then WriteEvent else NoneEvent)
  }

  /**
   * After any sequence of enable/disable calls on a fresh Channel, its mask is
   * exactly the union of the currently enabled flags.
   */
  lemma {:induction false} MaskIsUnionOfEnabledFlags(changes: seq<InterestChange>)
    ensures ApplyAll(NoneEvent, changes) == FlagsMask(ReadingWanted(changes), WritingWanted(changes))
  {
    if changes != [] {
      MaskIsUnionOfEnabledFlags(changes[..|changes| - 1]);
    }
  }

  /** The four callback slots of a Channel, in the order in which they are tried. */
  datatype CallbackKind = CloseCallback | ErrorCallback | ReadCallback | WriteCallback

  function Rank(kind: CallbackKind): nat
  {
    match kind
    case CloseCallback => 0
    case ErrorCallback => 1
    case ReadCallback => 2
    case WriteCallback => 3
  }

  function FireIf(kind: CallbackKind, installed: set<CallbackKind>, condition: bool): seq<CallbackKind>
  {
    if condition && kind in installed then [kind] else []
  }

  /** The observed-event conditions under which each callback is tried. */
  predicate ClosesOn(revents: Mask) { revents & EpollHup != 0 && revents & EpollIn == 0 }
  predicate ErrsOn(revents: Mask) { revents & EpollErr != 0 }
  predicate ReadsOn(revents: Mask) { revents & (EpollIn | EpollPri | EpollRdHup) != 0 }
  predicate WritesOn(revents: Mask) { revents & EpollOut != 0 }

  /**
   * The installed callbacks among close, error, read and write whose
   * conditions hold, in that order, each at most once.
   */
  function Select(installed: set<CallbackKind>, close: bool, error: bool, read: bool, write: bool)
    : (fired: seq<CallbackKind>)
    ensures CloseCallback in fired <==> CloseCallback in installed && close
    ensures ErrorCallback in fired <==> ErrorCallback in installed && error
    ensures ReadCallback in fired <==> ReadCallback in installed && read
    ensures WriteCallback in fired <==> WriteCallback in installed && write
    ensures forall i | 0 <= i < |fired| :: fired[i] in installed
  {
    FireIf(CloseCallback, installed, close)
    + FireIf(ErrorCallback, installed, error)
    + FireIf(ReadCallback, installed, read)
    + FireIf(WriteCallback, installed, write)
  }

  /**
   * The callbacks `handleEventWithGuard` runs for the observed mask `revents`,
   * given which slots hold a callback: close on a hang-up without input, error
   * on an error, read on input, urgent data or peer half-close, write on
   * writability; empty slots are skipped; the order is fixed and each runs at
   * most once.
   */
  function Dispatch(revents: Mask, installed: set<CallbackKind>): (fired: seq<CallbackKind>)
    ensures CloseCallback in fired <==> CloseCallback in installed && ClosesOn(revents)
    ensures ErrorCallback in fired <==> ErrorCallback in installed && ErrsOn(revents)
    ensures ReadCallback in fired <==> ReadCallback in installed && ReadsOn(revents)
    ensures WriteCallback in fired <==> WriteCallback in installed && WritesOn(revents)
    ensures forall i | 0 <= i < |fired| :: fired[i] in installed
  {
    Select(installed, ClosesOn(revents), ErrsOn(revents), ReadsOn(revents), WritesOn(revents))
  }

  /** The callbacks fire in the fixed order close, error, read, write, each at most once. */
  lemma DispatchOrder(revents: Mask, installed: set<CallbackKind>)
    ensures var fired := Dispatch(revents, installed);
      forall i, j | 0 <= i < j < |fired| :: Rank(fired[i]) < Rank(fired[j])
  {
  }

  /** A hang-up together with readable input drains the input and does not close. */
  lemma HangupWithInputReadsInsteadOfClosing(revents: Mask, installed: set<CallbackKind>)
    requires revents & EpollHup != 0 && revents & EpollIn != 0
    requires ReadCallback in installed
    ensures CloseCallback !in Dispatch(revents, installed)
    ensures ReadCallback in Dispatch(revents, installed)
  {
  }

  /** Every fired callback was installed, and nothing fires when no event was observed. */
  lemma DispatchOnlyInstalled(revents: Mask, installed: set<CallbackKind>)
    ensures forall k | k in Dispatch(revents, installed) :: k in installed
    ensures revents == NoneEvent ==> Dispatch(revents, installed) == []
  {
  }
}
