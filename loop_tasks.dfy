/**
 * The pending-task queue of an EventLoop and one cycle of its loop
 * (src/net/EventLoop.cpp), as functions on the loop's task state.
 *
 * A callback or task is a `std::function<void()>`. Here it is a Functor: an
 * identity and the loop operations its body performs, in order: queue a task
 * (`queueInLoop`), run a task (`runInLoop`) or request the loop to stop
 * (`quit`). A callback or task always runs on the loop thread.
 *
 * Two levels are defined: the step functions that follow the source call by
 * call, and the effect of a task or a batch (what it appends to the log and
 * to the queue, whether it requests a stop), defined compositionally. The
 * lemmas show that the step functions have exactly those effects.
 */
module LoopTasks {

  import opened EpollEvents
  import opened Wrappers

  datatype Functor = Functor(id: nat, body: seq<Action>)

  datatype Action = Queue(task: Functor) | Run(task: Functor) | Quit

  /** What the log records: a callback fired for a descriptor, or a task started. */
  datatype Entry = Fired(fd: int, kind: CallbackKind) | Ran(id: nat)

  /**
   * The loop's task state: the pending queue, `m_callingPendingFunctors`,
   * `m_quit`, the number of `wakeup()` calls, and the log.
   */
  datatype TaskState = TaskState(pending: seq<Functor>, calling: bool, quit: bool, wakeups: nat, log: seq<Entry>)

  /** `queueInLoop`: append at the back; wake the loop unless called on its thread outside a drain. */
  function QueueInLoop(s: TaskState, f: Functor, inLoopThread: bool): TaskState
  {
    s.(pending := s.pending + [f], wakeups := if !inLoopThread || s.calling then s.wakeups + 1 else s.wakeups)
  }

  /** `quit`: set the flag; wake the loop only when called from another thread. */
  function QuitLoop(s: TaskState, inLoopThread: bool): TaskState
  {
    s.(quit := true, wakeups := if inLoopThread then s.wakeups else s.wakeups + 1)
  }

  /** `runInLoop`: run now on the loop thread, queue otherwise. */
  function RunInLoop(s: TaskState, f: Functor, inLoopThread: bool): TaskState
  {
    if inLoopThread then Exec(s, f) else QueueInLoop(s, f, false)
  }

  /** Running task `f` on the loop thread: it is logged, then its body is performed. */
  function Exec(s: TaskState, f: Functor): TaskState
    decreases f, |f.body| + 1
  {
    PerformUpTo(s.(log := s.log + [Ran(f.id)]), f, |f.body|)
  }

  /** The first `k` actions of `f`'s body, performed on the loop thread. */
  function PerformUpTo(s: TaskState, f: Functor, k: nat): TaskState
    requires k <= |f.body|
    decreases f, k
  {
    if k == 0 then s
    else
      var t := PerformUpTo(s, f, k - 1);
      match f.body[k - 1]
      case Queue(g) => QueueInLoop(t, g, true)
      case Run(g) => Exec(t, g)
      case Quit => QuitLoop(t, true)
  }

  /** What running something contributes: log entries, newly queued tasks, and whether it requests a stop. */
  datatype Effect = Effect(trace: seq<Entry>, spawned: seq<Functor>, quits: bool)

  const NoEffect := Effect([], [], false)

  function Then(a: Effect, b: Effect): Effect
  {
    Effect(a.trace + b.trace, a.spawned + b.spawned, a.quits || b.quits)
  }

  /** The state after an effect. Queueing during a drain wakes the loop once per task. */
  function Apply(s: TaskState, e: Effect): TaskState
  {
    TaskState(s.pending + e.spawned, s.calling, s.quit || e.quits,
              s.wakeups + (if s.calling then |e.spawned| else 0), s.log + e.trace)
  }

  /** The effect of task `f`. */
  function TaskEffect(f: Functor): Effect
    decreases f, |f.body| + 1
  {
    Then(Effect([Ran(f.id)], [], false), BodyEffect(f, |f.body|))
  }

  /** The effect of the first `k` actions of `f`'s body. */
  function BodyEffect(f: Functor, k: nat): Effect
    requires k <= |f.body|
    decreases f, k
  {
    if k == 0 then NoEffect
    else
      Then(BodyEffect(f, k - 1),
           match f.body[k - 1]
           case Queue(g) => Effect([], [g], false)
           case Run(g) => TaskEffect(g)
           case Quit => Effect([], [], true))
  }

  lemma ApplyThen(s: TaskState, a: Effect, b: Effect)
    ensures Apply(Apply(s, a), b) == Apply(s, Then(a, b))
  {
    assert (s.pending + a.spawned) + b.spawned == s.pending + (a.spawned + b.spawned);
    assert (s.log + a.trace) + b.trace == s.log + (a.trace + b.trace);
  }

  /** Running a task has exactly the task's effect. */
  lemma {:induction false} ExecEffect(s: TaskState, f: Functor)
    ensures Exec(s, f) == Apply(s, TaskEffect(f))
    decreases f, |f.body| + 1
  {
    var s1 := s.(log := s.log + [Ran(f.id)]);
    assert s1 == Apply(s, Effect([Ran(f.id)], [], false));
    PerformUpToEffect(s1, f, |f.body|);
    ApplyThen(s, Effect([Ran(f.id)], [], false), BodyEffect(f, |f.body|));
  }

  /** Performing part of a body has exactly that part's effect. */
  lemma {:induction false} PerformUpToEffect(s: TaskState, f: Functor, k: nat)
    requires k <= |f.body|
    ensures PerformUpTo(s, f, k) == Apply(s, BodyEffect(f, k))
    decreases f, k
  {
    if k == 0 {
      assert s.pending + [] == s.pending && s.log + [] == s.log;
    } else {
      PerformUpToEffect(s, f, k - 1);
      var t := PerformUpTo(s, f, k - 1);
      var prior := BodyEffect(f, k - 1);
      match f.body[k - 1]
      case Queue(g) =>
        assert t.log + [] == t.log;
        ApplyThen(s, prior, Effect([], [g], false));
      case Run(g) =>
        ExecEffect(t, g);
        ApplyThen(s, prior, TaskEffect(g));
      case Quit =>
        assert t.pending + [] == t.pending && t.log + [] == t.log;
        ApplyThen(s, prior, Effect([], [], true));
    }
  }

  /** The tasks of `batch` run in order, as in the `for` loop of `doPendingFunctors`. */
  function RunBatch(s: TaskState, batch: seq<Functor>): TaskState
  {
    if batch == [] then s else Exec(RunBatch(s, batch[..|batch| - 1]), batch[|batch| - 1])
  }

  function BatchEffect(batch: seq<Functor>): Effect
  {
    if batch == [] then NoEffect else Then(BatchEffect(batch[..|batch| - 1]), TaskEffect(batch[|batch| - 1]))
  }

  lemma {:induction false} RunBatchEffect(s: TaskState, batch: seq<Functor>)
    ensures RunBatch(s, batch) == Apply(s, BatchEffect(batch))
  {
    if batch == [] {
      assert s.pending + [] == s.pending && s.log + [] == s.log;
    } else {
      var prefix := batch[..|batch| - 1];
      RunBatchEffect(s, prefix);
      ExecEffect(RunBatch(s, prefix), batch[|batch| - 1]);
      ApplyThen(s, BatchEffect(prefix), TaskEffect(batch[|batch| - 1]));
    }
  }

  /**
   * `doPendingFunctors`: raise the flag, swap the queue out, run the swapped
   * batch in order, lower the flag.
   */
  function Drain(s: TaskState): TaskState
  {
    RunBatch(s.(pending := [], calling := true), s.pending).(calling := false)
  }

  /**
   * A drain runs exactly the tasks pending at the swap, in order; what they
   * queue stays pending, with one wakeup each; the flag is lowered afterwards.
   */
  lemma DrainEffect(s: TaskState)
    ensures var e := BatchEffect(s.pending);
      Drain(s) == TaskState(e.spawned, false, s.quit || e.quits, s.wakeups + |e.spawned|, s.log + e.trace)
  {
    RunBatchEffect(s.(pending := [], calling := true), s.pending);
  }

  /** A task with an empty body only logs that it ran. */
  predicate Plain(f: Functor) { f.body == [] }

  function RanAll(batch: seq<Functor>): seq<Entry>
  {
    if batch == [] then [] else RanAll(batch[..|batch| - 1]) + [Ran(batch[|batch| - 1].id)]
  }

  /** Draining plain tasks logs their ids in queue order and leaves the queue empty. */
  lemma {:induction false} DrainPlainTasks(s: TaskState)
    requires forall i | 0 <= i < |s.pending| :: Plain(s.pending[i])
    ensures Drain(s).log == s.log + RanAll(s.pending)
    ensures Drain(s).pending == [] && !Drain(s).calling && Drain(s).wakeups == s.wakeups
  {
    DrainEffect(s);
    PlainBatchEffect(s.pending);
  }

  lemma {:induction false} PlainBatchEffect(batch: seq<Functor>)
    requires forall i | 0 <= i < |batch| :: Plain(batch[i])
    ensures BatchEffect(batch) == Effect(RanAll(batch), [], false)
  {
    if batch != [] {
      PlainBatchEffect(batch[..|batch| - 1]);
      assert BodyEffect(batch[|batch| - 1], 0) == NoEffect;
    }
  }

  /** A task appended to a batch adds its effect after the batch's. */
  lemma BatchEffectSnoc(batch: seq<Functor>, f: Functor)
    ensures BatchEffect(batch + [f]) == Then(BatchEffect(batch), TaskEffect(f))
  {
    assert (batch + [f])[..|batch|] == batch;
  }

  /**
   * Tasks queued one after the other run in that order at the next drain
   * (FIFO): they are pending in queueing order, so by DrainEffect the drain
   * logs the earlier tasks' effects, then `f`'s, then `g`'s.
   */
  lemma QueueOrder(s: TaskState, f: Functor, g: Functor, fromLoop: bool, gFromLoop: bool)
    ensures var s2 := QueueInLoop(QueueInLoop(s, f, fromLoop), g, gFromLoop);
      s2.pending == s.pending + [f] + [g]
      && BatchEffect(s2.pending).trace == BatchEffect(s.pending).trace + TaskEffect(f).trace + TaskEffect(g).trace
  {
    BatchEffectSnoc(s.pending, f);
    BatchEffectSnoc(s.pending + [f], g);
  }

  /** `queueInLoop` wakes the loop exactly when called from another thread or during a drain. */
  lemma QueueWakes(s: TaskState, f: Functor, inLoopThread: bool)
    ensures QueueInLoop(s, f, inLoopThread).wakeups == s.wakeups + 1 <==> !inLoopThread || s.calling
    ensures QueueInLoop(s, f, inLoopThread).wakeups == s.wakeups <==> inLoopThread && !s.calling
    ensures QueueInLoop(s, f, inLoopThread).pending[..|s.pending|] == s.pending
  {
  }

  /** On the loop thread `runInLoop` runs the task at once; elsewhere it queues it and wakes the loop. */
  lemma RunInLoopEffect(s: TaskState, f: Functor, inLoopThread: bool)
    ensures inLoopThread ==> RunInLoop(s, f, inLoopThread) == Apply(s, TaskEffect(f))
    ensures !inLoopThread ==>
      RunInLoop(s, f, inLoopThread) == s.(pending := s.pending + [f], wakeups := s.wakeups + 1)
    ensures inLoopThread && Plain(f) ==> RunInLoop(s, f, inLoopThread).pending == s.pending
  {
    if inLoopThread {
      ExecEffect(s, f);
    }
  }

  /** `quit` sets the flag whatever its previous value; a second call changes neither the flag, the queue nor the log. */
  lemma QuitIdempotent(s: TaskState, inLoopThread: bool)
    ensures QuitLoop(s, inLoopThread).quit
    ensures var t := QuitLoop(s, inLoopThread);
      QuitLoop(t, inLoopThread).(wakeups := t.wakeups) == t
    ensures QuitLoop(s, inLoopThread).pending == s.pending && QuitLoop(s, inLoopThread).log == s.log
  {
  }

  /** What `handleEvent` needs of a Channel: its descriptor, observed mask, tie and callbacks. */
  datatype ChannelView = ChannelView(fd: int, revents: Mask, tied: bool, ownerAlive: bool,
                                     callbacks: map<CallbackKind, Functor>)

  /**
   * A callback slot after one of the setters: a callback fills the slot, an
   * empty `std::function` (None) leaves it without one; other slots keep theirs.
   */
  function SetSlot(callbacks: map<CallbackKind, Functor>, kind: CallbackKind, cb: Option<Functor>)
    : (r: map<CallbackKind, Functor>)
    ensures kind in r <==> cb.Some?
    ensures cb.Some? ==> r[kind] == cb.value
    ensures forall k | k != kind :: (k in r <==> k in callbacks) && (k in r ==> r[k] == callbacks[k])
  {
    match cb
    case Some(f) => callbacks[kind := f]
    case None => callbacks - {kind}
  }

  /** Once a slot is emptied, no observed mask fires it. */
  lemma ClearedSlotNeverFires(revents: Mask, callbacks: map<CallbackKind, Functor>, kind: CallbackKind)
    ensures kind !in Dispatch(revents, SetSlot(callbacks, kind, None).Keys)
  {
  }

  /** A callback fired for `fd`: logged, then its body is performed. */
  function Fire(s: TaskState, fd: int, kind: CallbackKind, f: Functor): TaskState
  {
    PerformUpTo(s.(log := s.log + [Fired(fd, kind)]), f, |f.body|)
  }

  /** The callbacks `kinds` of `v`, fired in order. */
  function FireAll(s: TaskState, v: ChannelView, kinds: seq<CallbackKind>): TaskState
    requires forall i | 0 <= i < |kinds| :: kinds[i] in v.callbacks
  {
    if kinds == [] then s
    else
      var k := kinds[|kinds| - 1];
      Fire(FireAll(s, v, kinds[..|kinds| - 1]), v.fd, k, v.callbacks[k])
  }

  lemma FireAllSnoc(s: TaskState, v: ChannelView, kinds: seq<CallbackKind>, k: CallbackKind)
    requires forall i | 0 <= i < |kinds| :: kinds[i] in v.callbacks
    requires k in v.callbacks
    ensures FireAll(s, v, kinds + [k]) == Fire(FireAll(s, v, kinds), v.fd, k, v.callbacks[k])
  {
    assert (kinds + [k])[..|kinds|] == kinds;
  }

  /** A tied channel whose owner is gone dispatches nothing. */
  predicate Suppressed(v: ChannelView) { v.tied && !v.ownerAlive }

  /** `handleEvent`: unless suppressed by the tie, fire the callbacks Dispatch selects. */
  function HandleEventSpec(s: TaskState, v: ChannelView): TaskState
  {
    if Suppressed(v) then s
    else FireAll(s, v, Dispatch(v.revents, v.callbacks.Keys))
  }

  function FiringEffect(v: ChannelView, kinds: seq<CallbackKind>): Effect
    requires forall i | 0 <= i < |kinds| :: kinds[i] in v.callbacks
  {
    if kinds == [] then NoEffect
    else
      var k := kinds[|kinds| - 1];
      Then(FiringEffect(v, kinds[..|kinds| - 1]),
           Then(Effect([Fired(v.fd, k)], [], false), BodyEffect(v.callbacks[k], |v.callbacks[k].body|)))
  }

  lemma {:induction false} FireAllEffect(s: TaskState, v: ChannelView, kinds: seq<CallbackKind>)
    requires forall i | 0 <= i < |kinds| :: kinds[i] in v.callbacks
    ensures FireAll(s, v, kinds) == Apply(s, FiringEffect(v, kinds))
  {
    if kinds == [] {
      assert s.pending + [] == s.pending && s.log + [] == s.log;
    } else {
      var prefix := kinds[..|kinds| - 1];
      var k := kinds[|kinds| - 1];
      var f := v.callbacks[k];
      FireAllEffect(s, v, prefix);
      var t := FireAll(s, v, prefix);
      var t1 := t.(log := t.log + [Fired(v.fd, k)]);
      assert t1 == Apply(t, Effect([Fired(v.fd, k)], [], false));
      PerformUpToEffect(t1, f, |f.body|);
      ApplyThen(t, Effect([Fired(v.fd, k)], [], false), BodyEffect(f, |f.body|));
      ApplyThen(s, FiringEffect(v, prefix), Then(Effect([Fired(v.fd, k)], [], false), BodyEffect(f, |f.body|)));
    }
  }

  /** The callback entries of a log, in order. */
  function FiredOf(log: seq<Entry>): seq<Entry>
  {
    if log == [] then []
    else FiredOf(log[..|log| - 1]) + (if log[|log| - 1].Fired? then [log[|log| - 1]] else [])
  }

  lemma {:induction false} FiredOfConcat(a: seq<Entry>, b: seq<Entry>)
    ensures FiredOf(a + b) == FiredOf(a) + FiredOf(b)
    decreases |b|
  {
    if b == [] {
      assert a + b == a;
    } else {
      FiredOfConcat(a, b[..|b| - 1]);
      assert (a + b)[..|a + b| - 1] == a + b[..|b| - 1];
    }
  }

  /** A task's log entries are task starts only: tasks never fire callbacks. */
  lemma {:induction false} TaskTraceHasNoFired(f: Functor)
    ensures FiredOf(TaskEffect(f).trace) == []
    decreases f, |f.body| + 1
  {
    BodyTraceHasNoFired(f, |f.body|);
    FiredOfConcat([Ran(f.id)], BodyEffect(f, |f.body|).trace);
    assert FiredOf([Ran(f.id)]) == FiredOf([]) + [];
  }

  lemma {:induction false} BodyTraceHasNoFired(f: Functor, k: nat)
    requires k <= |f.body|
    ensures FiredOf(BodyEffect(f, k).trace) == []
    decreases f, k
  {
    if k > 0 {
      BodyTraceHasNoFired(f, k - 1);
      match f.body[k - 1]
      case Queue(g) =>
        FiredOfConcat(BodyEffect(f, k - 1).trace, []);
      case Run(g) =>
        TaskTraceHasNoFired(g);
        FiredOfConcat(BodyEffect(f, k - 1).trace, TaskEffect(g).trace);
      case Quit =>
        FiredOfConcat(BodyEffect(f, k - 1).trace, []);
    }
  }

  function FiredEntries(fd: int, kinds: seq<CallbackKind>): seq<Entry>
  {
    if kinds == [] then [] else FiredEntries(fd, kinds[..|kinds| - 1]) + [Fired(fd, kinds[|kinds| - 1])]
  }

  /** Firing `kinds` logs exactly one callback entry per kind, in the order of `kinds`. */
  lemma {:induction false} FiringLogsKindsInOrder(v: ChannelView, kinds: seq<CallbackKind>)
    requires forall i | 0 <= i < |kinds| :: kinds[i] in v.callbacks
    ensures FiredOf(FiringEffect(v, kinds).trace) == FiredEntries(v.fd, kinds)
  {
    if kinds != [] {
      var prefix := kinds[..|kinds| - 1];
      var k := kinds[|kinds| - 1];
      var f := v.callbacks[k];
      FiringLogsKindsInOrder(v, prefix);
      BodyTraceHasNoFired(f, |f.body|);
      FiredOfConcat([Fired(v.fd, k)], BodyEffect(f, |f.body|).trace);
      assert FiredOf([Fired(v.fd, k)]) == FiredOf([]) + [Fired(v.fd, k)];
      FiredOfConcat(FiringEffect(v, prefix).trace, [Fired(v.fd, k)] + BodyEffect(f, |f.body|).trace);
    }
  }

  /** Firing installed callbacks `kinds` adds one callback entry per kind to the log, in order. */
  lemma FireAllLogs(s: TaskState, v: ChannelView, kinds: seq<CallbackKind>)
    requires forall i | 0 <= i < |kinds| :: kinds[i] in v.callbacks
    ensures FiredOf(FireAll(s, v, kinds).log) == FiredOf(s.log) + FiredEntries(v.fd, kinds)
  {
    FireAllEffect(s, v, kinds);
    FiringLogsKindsInOrder(v, kinds);
    FiredOfConcat(s.log, FiringEffect(v, kinds).trace);
  }

  /**
   * `handleEvent` logs exactly the callbacks Dispatch selects, in its order,
   * unless the tie suppresses it, in which case nothing at all changes.
   */
  lemma HandleEventLogsDispatch(s: TaskState, v: ChannelView)
    ensures Suppressed(v) ==> HandleEventSpec(s, v) == s
    ensures !Suppressed(v) ==>
      FiredOf(HandleEventSpec(s, v).log) == FiredOf(s.log) + FiredEntries(v.fd, Dispatch(v.revents, v.callbacks.Keys))
  {
    if !Suppressed(v) {
      FireAllLogs(s, v, Dispatch(v.revents, v.callbacks.Keys));
    }
  }

  /** `handleEvent` for each active channel in turn. */
  function DispatchAll(s: TaskState, views: seq<ChannelView>): TaskState
  {
    if views == [] then s else HandleEventSpec(DispatchAll(s, views[..|views| - 1]), views[|views| - 1])
  }

  /** One iteration of `loop` after the poll: dispatch the active channels in order, then drain. */
  function Cycle(s: TaskState, views: seq<ChannelView>): TaskState
  {
    Drain(DispatchAll(s, views))
  }

  /**
   * The callback entries dispatching `views` in order should log: for each
   * view not suppressed by its tie, the callbacks Dispatch selects.
   */
  function DispatchedEntries(views: seq<ChannelView>): seq<Entry>
  {
    if views == [] then []
    else
      var v := views[|views| - 1];
      DispatchedEntries(views[..|views| - 1])
      + (if Suppressed(v) then [] else FiredEntries(v.fd, Dispatch(v.revents, v.callbacks.Keys)))
  }

  /** Dispatching the active channels logs exactly their selected callbacks, channel by channel in delivery order. */
  lemma {:induction false} DispatchAllLogs(s: TaskState, views: seq<ChannelView>)
    ensures FiredOf(DispatchAll(s, views).log) == FiredOf(s.log) + DispatchedEntries(views)
  {
    if views != [] {
      var prefix := views[..|views| - 1];
      DispatchAllLogs(s, prefix);
      HandleEventLogsDispatch(DispatchAll(s, prefix), views[|views| - 1]);
    }
  }

  /** A batch of tasks never logs a callback of a channel. */
  lemma {:induction false} BatchTraceHasNoFired(batch: seq<Functor>)
    ensures FiredOf(BatchEffect(batch).trace) == []
  {
    if batch != [] {
      BatchTraceHasNoFired(batch[..|batch| - 1]);
      TaskTraceHasNoFired(batch[|batch| - 1]);
      FiredOfConcat(BatchEffect(batch[..|batch| - 1]).trace, TaskEffect(batch[|batch| - 1]).trace);
    }
  }

  /** The callbacks one loop iteration logs are exactly those its dispatch selects; the drain adds none. */
  lemma CycleLogs(s: TaskState, views: seq<ChannelView>)
    ensures FiredOf(Cycle(s, views).log) == FiredOf(s.log) + DispatchedEntries(views)
  {
    var t := DispatchAll(s, views);
    DispatchAllLogs(s, views);
    DrainEffect(t);
    BatchTraceHasNoFired(t.pending);
    FiredOfConcat(t.log, BatchEffect(t.pending).trace);
  }

  /**
   * The iterations of `loop` while the quit flag is clear, one per batch of
   * active channels; the result is the final state and the number of
   * iterations run. Running out of batches stands for a loop still blocked in
   * `epoll_wait`.
   */
  function RunLoop(s: TaskState, batches: seq<seq<ChannelView>>): (TaskState, nat)
    decreases |batches|
  {
    if s.quit || batches == [] then (s, 0)
    else
      var r := RunLoop(Cycle(s, batches[0]), batches[1..]);
      (r.0, r.1 + 1)
  }

  /** The loop runs no more iterations than it has batches, and it stops early only on the quit flag. */
  lemma {:induction false} RunLoopStopsOnlyOnQuit(s: TaskState, batches: seq<seq<ChannelView>>)
    ensures RunLoop(s, batches).1 <= |batches|
    ensures RunLoop(s, batches).1 < |batches| ==> RunLoop(s, batches).0.quit
    ensures s.quit ==> RunLoop(s, batches) == (s, 0)
    decreases |batches|
  {
    if !s.quit && batches != [] {
      RunLoopStopsOnlyOnQuit(Cycle(s, batches[0]), batches[1..]);
    }
  }

  /** A run that used all its batches without stopping takes one more batch as one more cycle. */
  lemma {:induction false} RunLoopSnoc(s: TaskState, batches: seq<seq<ChannelView>>, views: seq<ChannelView>)
    requires RunLoop(s, batches).1 == |batches| && !RunLoop(s, batches).0.quit
    ensures RunLoop(s, batches + [views]) == (Cycle(RunLoop(s, batches).0, views), |batches| + 1)
    decreases |batches|
  {
    if batches == [] {
      assert [] + [views] == [views] && [views][1..] == [];
    } else {
      assert (batches + [views])[1..] == batches[1..] + [views];
      RunLoopSnoc(Cycle(s, batches[0]), batches[1..], views);
    }
  }

  /** A cycle whose drained tasks request a stop is the last one. */
  lemma QuitInDrainEndsLoop(s: TaskState, batches: seq<seq<ChannelView>>)
    requires !s.quit && batches != []
    requires Cycle(s, batches[0]).quit
    ensures RunLoop(s, batches) == (Cycle(s, batches[0]), 1)
  {
  }
}
