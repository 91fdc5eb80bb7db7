/** Entities shared by the scheduler and the IO manager: fibers, callbacks, queued tasks. */
module Tasks {
  import opened Sums

  type FiberId = nat

  datatype FiberState = READY | RUNNING | TERM

  datatype Event = READ | WRITE

  /** A std::function of the source, named by what it does when it is called. */
  datatype Callback =
    | UserCb(id: nat)                                // code of the application
    | WakeCb(fiber: FiberId)                         // Schedule(fiber, -1), bound by the hooked sleeps
    | TimeoutCb(info: nat, fd: nat, event: Event)    // the timeout lambda of do_io and connect

  /** ScheduleTask: a fiber or a callback, to run on one thread or (None, -1 in the source) on any. */
  datatype Task = Task(fiber: Option<FiberId>, cb: Option<Callback>, thread: Option<nat>) {
    predicate Empty() { fiber.None? && cb.None? }
  }

  function FiberTask(f: FiberId): Task { Task(Some(f), None, None) }
  function CbTask(cb: Callback): Task { Task(None, Some(cb), None) }

  /** ScheduleNoLock: an empty task is dropped. */
  function Scheduled(tasks: seq<Task>, t: Task): seq<Task> {
    if t.Empty() then tasks else tasks + [t]
  }

  /** May thread `tid` take `t`? Not when it is pinned elsewhere, nor when its fiber is still running. */
  predicate Dispatchable(t: Task, tid: nat, states: seq<FiberState>) {
    && (t.thread.Some? ==> t.thread.value == tid)
    && (t.fiber.Some? && t.fiber.value < |states| ==> states[t.fiber.value] != RUNNING)
  }

  /** `i` is the entry that Run takes on thread `tid`: the first dispatchable one. */
  ghost predicate IsPick(tasks: seq<Task>, tid: nat, states: seq<FiberState>, i: nat) {
    && i < |tasks|
    && Dispatchable(tasks[i], tid, states)
    && forall j :: 0 <= j < i ==> !Dispatchable(tasks[j], tid, states)
  }

  /** One of the first `n` entries is pinned to another thread. */
  ghost predicate PinnedElsewhere(tasks: seq<Task>, tid: nat, n: nat)
    requires n <= |tasks|
  {
    exists j :: 0 <= j < n && tasks[j].thread.Some? && tasks[j].thread.value != tid
  }

  ghost predicate NoPick(tasks: seq<Task>, tid: nat, states: seq<FiberState>) {
    forall j :: 0 <= j < |tasks| ==> !Dispatchable(tasks[j], tid, states)
  }
}
