/** The base scheduler: its queue as an object, and N workers running `Run` and `Idle` as a step machine.
    One step is one critical section, one Resume, one Yield or one atomic counter update. */
module Scheduler {
  import opened Sums
  import opened Tasks

  /** The mutable part of the scheduler that is protected by `mutex_`. */
  class Scheduler {
    var tasks: seq<Task>
    var active: int
    var stopping: bool

    constructor ()
      ensures tasks == [] && active == 0 && !stopping
    {
      tasks, active, stopping := [], 0, false;
    }

    /** Schedule: the result says whether the caller has to tickle the workers. */
    method Schedule(t: Task) returns (needTickle: bool)
      modifies this`tasks
      ensures tasks == Scheduled(old(tasks), t)
      ensures needTickle == (old(tasks) == [])
    {
      needTickle := tasks == [];
      if t.fiber.Some? || t.cb.Some? {
        tasks := tasks + [t];
      }
    }

    /** The critical section of Run: scan the queue, skip what this thread may not take, remove the first
        task it may take. Without one the worker goes idle. */
    method Fetch(tid: nat, states: seq<FiberState>) returns (task: Option<Task>, tickle: bool)
      modifies this`tasks, this`active
      ensures task.Some? ==> exists i: nat ::
          && IsPick(old(tasks), tid, states, i)
          && task.value == old(tasks)[i]
          && tasks == Removed(old(tasks), i)
          && active == old(active) + 1
          && (tickle <==>
                || i + 1 < |old(tasks)|
                || exists j :: 0 <= j < i && old(tasks)[j].thread.Some? && old(tasks)[j].thread.value != tid)
      ensures task.None? ==>
          && NoPick(old(tasks), tid, states) && tasks == old(tasks) && active == old(active)
          && (tickle <==> exists t :: t in tasks && t.thread.Some? && t.thread.value != tid)
      // The same, spelt out: what is skipped is pinned to another thread or running.
      ensures task.None? <==> forall j :: 0 <= j < |old(tasks)| ==>
          var t := old(tasks)[j];
          || (t.thread.Some? && t.thread.value != tid)
          || (t.fiber.Some? && t.fiber.value < |states| && states[t.fiber.value] == RUNNING)
      ensures task.Some? ==> exists i: nat ::
          && i < |old(tasks)| && task.value == old(tasks)[i] && tasks == Removed(old(tasks), i)
          && (task.value.thread.Some? ==> task.value.thread.value == tid)
          && (task.value.fiber.Some? && task.value.fiber.value < |states| ==> states[task.value.fiber.value] != RUNNING)
          && forall j :: 0 <= j < i ==>
               var t := old(tasks)[j];
               || (t.thread.Some? && t.thread.value != tid)
               || (t.fiber.Some? && t.fiber.value < |states| && states[t.fiber.value] == RUNNING)
    {
      var it := 0;
      task, tickle := None, false;
      while it < |tasks|
        invariant 0 <= it <= |tasks|
        invariant tasks == old(tasks) && active == old(active)
        invariant forall j :: 0 <= j < it ==> !Dispatchable(tasks[j], tid, states)
        invariant tickle <==> PinnedElsewhere(tasks, tid, it)
      {
        var t := tasks[it];
        if t.thread.Some? && t.thread.value != tid {
          it := it + 1;
          tickle := true;
        } else if t.fiber.Some? && t.fiber.value < |states| && states[t.fiber.value] == RUNNING {
          it := it + 1;
        } else {
          assert IsPick(old(tasks), tid, states, it);
          task := Some(t);
          tasks := tasks[..it] + tasks[it + 1..];
          active := active + 1;
          tickle := tickle || it < |tasks|;
          return;
        }
      }
    }
  }

  // ------------------------------------------------------------------ the step machine

  /** Where a worker is in Run. A callback task runs on a fiber made for it, so `Running` names a fiber. */
  datatype Pc =
    | Fetching
    | Got(task: Task)
    | Running(task: Task, fiber: FiberId)
    | Ran(task: Task)
    | Idling
    | IdleReturned
    | Exited

  datatype Worker = Worker(pc: Pc, idleTerm: bool)

  datatype Dispatch = Dispatch(task: Task, thread: nat)

  /** `scheduled`, `dispatched` and `finished` record the history of the run. */
  datatype State = State(
    tasks: seq<Task>, active: int, idle: int, stopping: bool,
    workers: seq<Worker>, states: seq<FiberState>,
    scheduled: seq<Task>, dispatched: seq<Dispatch>, finished: multiset<Task>)

  datatype Action =
    | Submit(task: Task)                       // Schedule from outside the workers
    | Stop                                     // Stop sets stopping_
    | Take(w: nat, i: nat)                     // Run removes entry i
    | TakeNone(w: nat)                         // Run finds nothing: idle fiber, or leave Run
    | Resume(w: nat)
    | NewFiber(w: nat)                         // a running task creates a fiber
    | TaskSchedules(w: nat, task: Task)        // a running task calls Schedule
    | Yield(w: nat, term: bool)                // the running fiber yields, or ends
    | Finish(w: nat)                           // Run decrements active_thread_count_
    | IdleCheck(w: nat)                        // Idle evaluates Stopping()
    | IdleLeave(w: nat)                        // Run decrements idle_thread_count_

  predicate Stopping(s: State) {
    s.stopping && s.tasks == [] && s.active == 0
  }

  predicate Known(t: Task, states: seq<FiberState>) {
    t.fiber.Some? ==> t.fiber.value < |states|
  }

  /** A failed ASSERT of Resume halts the run. */
  ghost predicate Enabled(s: State, a: Action) {
    match a
    case Submit(t) => Known(t, s.states)
    case Stop => true
    case Take(w, i) => w < |s.workers| && s.workers[w].pc == Fetching && IsPick(s.tasks, w, s.states, i)
    case TakeNone(w) => w < |s.workers| && s.workers[w].pc == Fetching && NoPick(s.tasks, w, s.states)
    case Resume(w) =>
      && w < |s.workers| && s.workers[w].pc.Got?
      && var t := s.workers[w].pc.task;
         t.fiber.Some? ==> t.fiber.value < |s.states| && s.states[t.fiber.value] == READY
    case NewFiber(w) => w < |s.workers| && s.workers[w].pc.Running?
    case TaskSchedules(w, t) => w < |s.workers| && s.workers[w].pc.Running? && Known(t, s.states)
    case Yield(w, term) =>
      w < |s.workers| && s.workers[w].pc.Running? && s.workers[w].pc.fiber < |s.states|
    case Finish(w) => w < |s.workers| && s.workers[w].pc.Ran?
    case IdleCheck(w) => w < |s.workers| && s.workers[w].pc == Idling
    case IdleLeave(w) => w < |s.workers| && s.workers[w].pc == IdleReturned
  }

  function Enqueue(s: State, t: Task): State {
    s.(tasks := Scheduled(s.tasks, t), scheduled := Scheduled(s.scheduled, t))
  }

  function Move(s: State, w: nat, pc: Pc): State
    requires w < |s.workers|
  {
    s.(workers := s.workers[w := s.workers[w].(pc := pc)])
  }

  ghost function Apply(s: State, a: Action): State
    requires Enabled(s, a)
  {
    match a
    case Submit(t) => Enqueue(s, t)
    case Stop => s.(stopping := true)
    case Take(w, i) =>
      Move(s, w, Got(s.tasks[i])).(
        tasks := Removed(s.tasks, i), active := s.active + 1,
        dispatched := s.dispatched + [Dispatch(s.tasks[i], w)])
    case TakeNone(w) =>
      if s.workers[w].idleTerm then Move(s, w, Exited)
      else Move(s, w, Idling).(idle := s.idle + 1)
    case Resume(w) =>
      var t := s.workers[w].pc.task;
      if t.fiber.Some?
      then Move(s, w, Running(t, t.fiber.value)).(states := s.states[t.fiber.value := RUNNING])
      else Move(s, w, Running(t, |s.states|)).(states := s.states + [RUNNING])
    case NewFiber(w) => s.(states := s.states + [READY])
    case TaskSchedules(w, t) => Enqueue(s, t)
    case Yield(w, term) =>
      var pc := s.workers[w].pc;
      Move(s, w, Ran(pc.task)).(states := s.states[pc.fiber := if term then TERM else READY])
    case Finish(w) =>
      Move(s, w, Fetching).(
        active := s.active - 1, finished := s.finished + multiset{s.workers[w].pc.task})
    case IdleCheck(w) =>
      s.(workers := s.workers[w := Worker(IdleReturned, Stopping(s))])
    case IdleLeave(w) => Move(s, w, Fetching).(idle := s.idle - 1)
  }

  // ------------------------------------------------------------------ when a worker goes idle

  /** A worker at the head of Run finds nothing if and only if every queued task is pinned to another thread or is a
      fiber that is still running; in particular a task pinned to it, or to nobody, is never left. */
  lemma TakeNoneExactly(s: State, w: nat)
    requires w < |s.workers| && s.workers[w].pc == Fetching
    ensures Enabled(s, TakeNone(w)) <==>
      !exists j :: 0 <= j < |s.tasks|
        && (s.tasks[j].thread.None? || s.tasks[j].thread.value == w)
        && (s.tasks[j].fiber.None? || s.tasks[j].fiber.value >= |s.states|
            || s.states[s.tasks[j].fiber.value] != RUNNING)
    ensures Enabled(s, TakeNone(w)) <==> !exists i: nat :: Enabled(s, Take(w, i))
  {
    if !Enabled(s, TakeNone(w)) {
      var j :| 0 <= j < |s.tasks| && Dispatchable(s.tasks[j], w, s.states);
      FirstPick(s.tasks, w, s.states, j);
      var i: nat :| i <= j && IsPick(s.tasks, w, s.states, i);
      assert Enabled(s, Take(w, i));
    }
  }

  lemma {:induction false} FirstPick(ts: seq<Task>, tid: nat, states: seq<FiberState>, j: nat)
    requires j < |ts| && Dispatchable(ts[j], tid, states)
    ensures exists i: nat :: i <= j && IsPick(ts, tid, states, i)
  {
    if k: nat :| k < j && Dispatchable(ts[k], tid, states) {
      FirstPick(ts, tid, states, k);
    } else {
      assert IsPick(ts, tid, states, j);
    }
  }

  /** Legal runs and the state they end in. */
  ghost predicate Legal(s0: State, acts: seq<Action>)
    decreases |acts|, 0
  {
    acts == [] ||
    (var n := |acts| - 1; Legal(s0, acts[..n]) && Enabled(After(s0, acts[..n]), acts[n]))
  }

  ghost function After(s0: State, acts: seq<Action>): State
    requires Legal(s0, acts)
    decreases |acts|, 1
  {
    if acts == [] then s0 else
      var n := |acts| - 1;
      Apply(After(s0, acts[..n]), acts[n])
  }

  ghost predicate Init(s: State) {
    && s.tasks == s.scheduled == [] && s.dispatched == [] && s.finished == multiset{}
    && s.active == s.idle == 0 && !s.stopping
    && |s.workers| > 0
    && (forall w :: 0 <= w < |s.workers| ==> s.workers[w] == Worker(Fetching, false))
  }

  /** The action is not a submission from outside after Stop. */
  predicate OnTime(s: State, a: Action) {
    a.Submit? ==> !s.stopping || a.task.Empty()
  }

  /** Nothing is submitted from outside once Stop has been called. */
  ghost predicate NoLateSubmit(s0: State, acts: seq<Action>)
    requires Legal(s0, acts)
    decreases |acts|
  {
    acts == [] ||
    (var n := |acts| - 1; NoLateSubmit(s0, acts[..n]) && OnTime(After(s0, acts[..n]), acts[n]))
  }

  // ------------------------------------------------------------------ invariant

  function InFlight(w: Worker): nat { if w.pc.Got? || w.pc.Running? || w.pc.Ran? then 1 else 0 }

  function InIdle(w: Worker): nat { if w.pc.Idling? || w.pc.IdleReturned? then 1 else 0 }

  function Carries(t: Task): Worker -> nat {
    (w: Worker) => if (w.pc.Got? || w.pc.Running? || w.pc.Ran?) && w.pc.task == t then 1 else 0
  }

  /** A callback task that any thread may run: never skipped by the scan of Run. */
  predicate PlainCallback(t: Task) { t.fiber.None? && t.thread.None? }

  function Plain(ts: seq<Task>): seq<Task> {
    if ts == [] then []
    else Plain(ts[..|ts| - 1]) + if PlainCallback(ts[|ts| - 1]) then [ts[|ts| - 1]] else []
  }

  function TasksOf(ds: seq<Dispatch>): seq<Task> {
    seq(|ds|, i requires 0 <= i < |ds| => ds[i].task)
  }

  /** Counters equal what they count. */
  ghost predicate CountersExact(s: State) {
    && s.active == Sum(s.workers, InFlight)
    && s.idle == Sum(s.workers, InIdle)
  }

  /** Scheduled tasks are queued, in flight or finished, with multiplicity. */
  ghost predicate Conserved(s: State) {
    forall t: Task :: multiset(s.scheduled)[t]
      == multiset(s.tasks)[t] + Beyond(s, t)
  }

  /** Pinned tasks went to their thread, and unpinned callbacks left in the order they came. */
  ghost predicate Ordered(s: State) {
    && (forall d :: d in s.dispatched && d.task.thread.Some? ==> d.task.thread.value == d.thread)
    && Plain(s.scheduled) == Plain(TasksOf(s.dispatched)) + Plain(s.tasks)
  }

  /** A worker whose idle fiber ended saw Stopping() true, and it has stayed true. */
  ghost predicate QuietAfterIdle(s: State) {
    forall w :: 0 <= w < |s.workers| && (s.workers[w].idleTerm || s.workers[w].pc == Exited) ==> Stopping(s)
  }

  ghost predicate Inv(s: State) {
    CountersExact(s) && Conserved(s) && Ordered(s)
  }

  // ------------------------------------------------------------------ each step keeps it

  /** A step of worker `w` changes only that worker's share of the two counters. */
  lemma CountersMove(s: State, s': State, w: nat)
    requires CountersExact(s) && w < |s.workers| == |s'.workers| && s'.workers == s.workers[w := s'.workers[w]]
    requires s'.active == s.active + InFlight(s'.workers[w]) - InFlight(s.workers[w])
    requires s'.idle == s.idle + InIdle(s'.workers[w]) - InIdle(s.workers[w])
    ensures CountersExact(s')
  {
    hide Sum;
    SumUpdate(s.workers, w, s'.workers[w], InFlight);
    SumUpdate(s.workers, w, s'.workers[w], InIdle);
  }

  lemma CountersStep(s: State, a: Action)
    requires CountersExact(s) && Enabled(s, a)
    ensures CountersExact(Apply(s, a))
  {
    hide Sum, IsPick, NoPick, Removed, Scheduled;
    if !(a.Submit? || a.Stop? || a.NewFiber? || a.TaskSchedules?) {
      hide CountersExact;
      CountersMove(s, Apply(s, a), a.w);
    }
  }

  lemma ScheduledCount(ts: seq<Task>, x: Task, t: Task)
    ensures multiset(Scheduled(ts, x))[t] == multiset(ts)[t] + if !x.Empty() && x == t then 1 else 0
  {
  }

  lemma RemovedCount(ts: seq<Task>, i: nat, t: Task)
    requires i < |ts|
    ensures multiset(Removed(ts, i))[t] + (if ts[i] == t then 1 else 0) == multiset(ts)[t]
  {
    assert ts == ts[..i] + [ts[i]] + ts[i + 1..];
  }

  /** How many copies of `t` are in flight or finished. */
  ghost function Beyond(s: State, t: Task): nat {
    Sum(s.workers, Carries(t)) + s.finished[t]
  }

  /** Only taking a task changes what is in flight or finished. */
  lemma BeyondStep(s: State, a: Action, t: Task)
    requires Enabled(s, a)
    ensures Beyond(Apply(s, a), t)
      == Beyond(s, t) + if a.Take? && s.tasks[a.i] == t then 1 else 0
  {
    hide Sum, IsPick, NoPick, Removed, Scheduled;
    if !(a.Submit? || a.Stop? || a.NewFiber? || a.TaskSchedules?) {
      SumUpdate(s.workers, a.w, Apply(s, a).workers[a.w], Carries(t));
    }
  }

  lemma QueueStep(s: State, a: Action, t: Task)
    requires Enabled(s, a)
    ensures multiset(Apply(s, a).scheduled)[t] + multiset(s.tasks)[t]
      == multiset(s.scheduled)[t] + multiset(Apply(s, a).tasks)[t]
         + if a.Take? && s.tasks[a.i] == t then 1 else 0
  {
    match a
    case Submit(x) =>
      ScheduledCount(s.tasks, x, t);
      ScheduledCount(s.scheduled, x, t);
    case TaskSchedules(w, x) =>
      ScheduledCount(s.tasks, x, t);
      ScheduledCount(s.scheduled, x, t);
    case Take(w, i) => RemovedCount(s.tasks, i, t);
    case _ =>
  }

  lemma ConservedStep(s: State, a: Action)
    requires Conserved(s) && Enabled(s, a)
    ensures Conserved(Apply(s, a))
  {
    var s' := Apply(s, a);
    forall t: Task
      ensures multiset(s'.scheduled)[t] == multiset(s'.tasks)[t] + Beyond(s', t)
    {
      BeyondStep(s, a, t);
      QueueStep(s, a, t);
    }
  }

  lemma {:induction false} PlainConcat(a: seq<Task>, b: seq<Task>)
    ensures Plain(a + b) == Plain(a) + Plain(b)
  {
    if b == [] {
      assert a + b == a;
    } else {
      var n := |b| - 1;
      assert (a + b)[..|a| + n] == a + b[..n];
      PlainConcat(a, b[..n]);
    }
  }

  lemma {:induction false} PlainNone(ts: seq<Task>)
    requires forall j :: 0 <= j < |ts| ==> !PlainCallback(ts[j])
    ensures Plain(ts) == []
  {
    if ts != [] {
      PlainNone(ts[..|ts| - 1]);
    }
  }

  /** What Run takes is the oldest unpinned callback whenever it is one. */
  lemma PlainPick(ts: seq<Task>, tid: nat, states: seq<FiberState>, i: nat)
    requires IsPick(ts, tid, states, i)
    ensures Plain(ts) == Plain([ts[i]]) + Plain(Removed(ts, i))
  {
    hide Plain;
    PlainNone(ts[..i]);
    assert ts == ts[..i] + ([ts[i]] + ts[i + 1..]);
    PlainConcat(ts[..i], [ts[i]] + ts[i + 1..]);
    PlainConcat([ts[i]], ts[i + 1..]);
    PlainConcat(ts[..i], ts[i + 1..]);
    assert [] + Plain(ts[i + 1..]) == Plain(ts[i + 1..]);
    assert [] + (Plain([ts[i]]) + Plain(ts[i + 1..])) == Plain([ts[i]]) + Plain(ts[i + 1..]);
  }

  lemma ScheduledPlain(ts: seq<Task>, t: Task)
    ensures Plain(Scheduled(ts, t)) == Plain(ts) + if t.Empty() then [] else Plain([t])
  {
    PlainConcat(ts, [t]);
  }

  lemma OrderedTake(s: State, a: Action)
    requires Ordered(s) && Enabled(s, a) && a.Take?
    ensures Ordered(Apply(s, a))
  {
    hide Plain;
    var t := s.tasks[a.i];
    PlainPick(s.tasks, a.w, s.states, a.i);
    assert TasksOf(s.dispatched + [Dispatch(t, a.w)]) == TasksOf(s.dispatched) + [t];
    PlainConcat(TasksOf(s.dispatched), [t]);
    var out, left := Plain(TasksOf(s.dispatched)), Plain(Removed(s.tasks, a.i));
    assert out + (Plain([t]) + left) == (out + Plain([t])) + left;
  }

  lemma OrderedEnqueue(s: State, t: Task)
    requires Ordered(s)
    ensures Ordered(Enqueue(s, t))
  {
    hide Plain, Scheduled, TasksOf;
    ScheduledPlain(s.tasks, t);
    ScheduledPlain(s.scheduled, t);
    var out, x := Plain(TasksOf(s.dispatched)), if t.Empty() then [] else Plain([t]);
    assert out + (Plain(s.tasks) + x) == (out + Plain(s.tasks)) + x;
  }

  lemma OrderedStep(s: State, a: Action)
    requires Ordered(s) && Enabled(s, a)
    ensures Ordered(Apply(s, a))
  {
    match a
    case Submit(t) => OrderedEnqueue(s, t);
    case TaskSchedules(w, t) => OrderedEnqueue(s, t);
    case Take(w, i) => OrderedTake(s, a);
    case _ =>
  }

  /** Shutdown detection is stable: only a task in flight could undo it, and there is none. */
  lemma StoppingStep(s: State, a: Action)
    requires CountersExact(s) && Stopping(s) && Enabled(s, a) && OnTime(s, a)
    ensures Stopping(Apply(s, a))
  {
    hide Sum;
    SumZero(s.workers, InFlight);
    if !(a.Submit? || a.Stop?) {
      assert s.workers[a.w] in s.workers;
      assert InFlight(s.workers[a.w]) == 0;
    }
  }

  lemma QuietStep(s: State, a: Action)
    requires CountersExact(s) && QuietAfterIdle(s) && Enabled(s, a) && OnTime(s, a)
    ensures QuietAfterIdle(Apply(s, a))
  {
    if Stopping(s) {
      StoppingStep(s, a);
    }
  }

  lemma InvStep(s: State, a: Action)
    requires Inv(s) && Enabled(s, a)
    ensures Inv(Apply(s, a))
  {
    CountersStep(s, a);
    ConservedStep(s, a);
    OrderedStep(s, a);
  }

  // ------------------------------------------------------------------ whole runs

  lemma InitInv(s: State)
    requires Init(s)
    ensures Inv(s)
  {
    hide Sum;
    SumZero(s.workers, InFlight);
    SumZero(s.workers, InIdle);
    forall t: Task
      ensures Sum(s.workers, Carries(t)) == 0
    {
      SumZero(s.workers, Carries(t));
    }
  }

  /** Every reachable state keeps the counters exact, loses and duplicates no task, honours pinning and
      dispatches unpinned callbacks first in, first out, whenever tasks are submitted. */
  lemma {:induction false} EveryRunKeepsInv(s0: State, acts: seq<Action>)
    requires Init(s0) && Legal(s0, acts)
    ensures Inv(After(s0, acts))
    decreases |acts|
  {
    if acts == [] {
      InitInv(s0);
    } else {
      var n := |acts| - 1;
      EveryRunKeepsInv(s0, acts[..n]);
      InvStep(After(s0, acts[..n]), acts[n]);
    }
  }

  /** A worker runs its task's fiber, that fiber is RUNNING, no two workers run the same one, and nobody else is
      RUNNING. */
  ghost predicate RunningExact(s: State) {
    && (forall w :: 0 <= w < |s.workers| && s.workers[w].pc.Running? ==>
          var pc := s.workers[w].pc;
          pc.fiber < |s.states| && s.states[pc.fiber] == RUNNING && (pc.task.fiber.Some? ==>
              pc.task.fiber.value == pc.fiber))
    && (forall v, w :: 0 <= v < w < |s.workers| && s.workers[v].pc.Running? && s.workers[w].pc.Running? ==>
          s.workers[v].pc.fiber != s.workers[w].pc.fiber)
    && (forall f :: 0 <= f < |s.states| && s.states[f] == RUNNING ==> RunBy(s, f))
  }

  ghost predicate RunBy(s: State, f: FiberId) {
    exists w :: 0 <= w < |s.workers| && s.workers[w].pc.Running? && s.workers[w].pc.fiber == f
  }

  /** The last clause, when only worker `w` moved and only fiber `g` changed its state. */
  lemma RunByKept(s: State, s': State, w: nat, g: FiberId)
    requires RunningExact(s) && w < |s.workers| == |s'.workers|
    requires forall v :: 0 <= v < |s.workers| && v != w ==> s'.workers[v] == s.workers[v]
    requires forall f :: 0 <= f < |s'.states| && f != g && s'.states[f] == RUNNING ==>
        f < |s.states| && s.states[f] == RUNNING
    requires g < |s'.states| && s'.states[g] == RUNNING ==> RunBy(s', g)
    requires s.workers[w].pc.Running? && s.workers[w].pc.fiber != g ==> s'.workers[w].pc == s.workers[w].pc
    ensures forall f :: 0 <= f < |s'.states| && s'.states[f] == RUNNING ==> RunBy(s', f)
  {
    forall f | 0 <= f < |s'.states| && s'.states[f] == RUNNING
      ensures RunBy(s', f)
    {
      if f != g {
        assert RunBy(s, f);
        var v :| 0 <= v < |s.workers| && s.workers[v].pc.Running? && s.workers[v].pc.fiber == f;
        assert s'.workers[v].pc.Running? && s'.workers[v].pc.fiber == f;
      }
    }
  }

  lemma RunningResume(s: State, w: nat)
    requires RunningExact(s) && Enabled(s, Resume(w))
    ensures RunningExact(Apply(s, Resume(w)))
  {
    var s' := Apply(s, Resume(w));
    var g := s'.workers[w].pc.fiber;
    assert RunBy(s', g);
    RunByKept(s, s', w, g);
  }

  lemma RunningYield(s: State, w: nat, term: bool)
    requires RunningExact(s) && Enabled(s, Yield(w, term))
    ensures RunningExact(Apply(s, Yield(w, term)))
  {
    RunByKept(s, Apply(s, Yield(w, term)), w, s.workers[w].pc.fiber);
  }

  /** No running worker moved, and fibers changed only by being created. */
  lemma RunningSame(s: State, s': State)
    requires RunningExact(s) && |s'.workers| == |s.workers| && |s.states| <= |s'.states|
    requires forall w :: 0 <= w < |s.workers| ==>
      s'.workers[w].pc == s.workers[w].pc || (!s.workers[w].pc.Running? && !s'.workers[w].pc.Running?)
    requires forall f :: 0 <= f < |s.states| ==> s'.states[f] == s.states[f]
    requires forall f :: |s.states| <= f < |s'.states| ==> s'.states[f] == READY
    ensures RunningExact(s')
  {
    forall f | 0 <= f < |s'.states| && s'.states[f] == RUNNING
      ensures RunBy(s', f)
    {
      assert RunBy(s, f);
      var v :| 0 <= v < |s.workers| && s.workers[v].pc.Running? && s.workers[v].pc.fiber == f;
      assert s'.workers[v].pc.Running? && s'.workers[v].pc.fiber == f;
    }
  }

  lemma RunningOther(s: State, a: Action)
    requires RunningExact(s) && Enabled(s, a) && !a.Resume? && !a.Yield?
    ensures RunningExact(Apply(s, a))
  {
    hide IsPick, NoPick, Removed, Scheduled, RunningExact;
    RunningSame(s, Apply(s, a));
  }

  lemma RunningStep(s: State, a: Action)
    requires RunningExact(s) && Enabled(s, a)
    ensures RunningExact(Apply(s, a))
  {
    hide RunningExact, Apply, Enabled;
    match a
    case Resume(w) => RunningResume(s, w);
    case Yield(w, term) => RunningYield(s, w, term);
    case _ => RunningOther(s, a);
  }

  /** A fiber that ended stays ended, and one that yielded is READY again. */
  lemma YieldExactly(s: State, a: Action, f: FiberId)
    requires RunningExact(s) && Enabled(s, a) && f < |s.states|
    ensures f < |Apply(s, a).states|
    ensures s.states[f] == TERM ==> Apply(s, a).states[f] == TERM
    ensures s.states[f] == RUNNING && Apply(s, a).states[f] != RUNNING <==>
            a.Yield? && s.workers[a.w].pc.fiber == f
    ensures a.Yield? && s.workers[a.w].pc.fiber == f ==> (Apply(s, a).states[f] == TERM <==> a.term)
    ensures s.states[f] == READY && Apply(s, a).states[f] != READY ==>
            a.Resume? && s.workers[a.w].pc.task.fiber == Some(f) && Apply(s, a).states[f] == RUNNING
  {
    hide IsPick, NoPick, Removed, Scheduled;
  }

  lemma {:induction false} RunningInEveryRun(s0: State, acts: seq<Action>)
    requires Init(s0) && Legal(s0, acts) && forall f :: 0 <= f < |s0.states| ==> s0.states[f] != RUNNING
    ensures RunningExact(After(s0, acts))
    decreases |acts|
  {
    if acts != [] {
      hide RunningExact, Enabled, Apply;
      var n := |acts| - 1;
      RunningInEveryRun(s0, acts[..n]);
      RunningStep(After(s0, acts[..n]), acts[n]);
    }
  }

  /** In a run without late submissions, a worker whose idle fiber ended can rely on what it saw. */
  lemma {:induction false} QuietInEveryRun(s0: State, acts: seq<Action>)
    requires Init(s0) && Legal(s0, acts) && NoLateSubmit(s0, acts)
    ensures QuietAfterIdle(After(s0, acts))
    decreases |acts|
  {
    if acts != [] {
      var n := |acts| - 1;
      QuietInEveryRun(s0, acts[..n]);
      EveryRunKeepsInv(s0, acts[..n]);
      QuietStep(After(s0, acts[..n]), acts[n]);
    }
  }

  /** Once Stopping() is true at some point of a run it is true at every later point. */
  lemma {:induction false} StoppingIsStable(s0: State, acts: seq<Action>, k: nat)
    requires Init(s0) && Legal(s0, acts) && NoLateSubmit(s0, acts) && k <= |acts|
    requires Legal(s0, acts[..k]) && Stopping(After(s0, acts[..k]))
    ensures Stopping(After(s0, acts))
    decreases |acts|
  {
    if k < |acts| {
      var n := |acts| - 1;
      assert acts[..n][..k] == acts[..k];
      StoppingIsStable(s0, acts[..n], k);
      EveryRunKeepsInv(s0, acts[..n]);
      StoppingStep(After(s0, acts[..n]), acts[n]);
    } else {
      assert acts[..k] == acts;
    }
  }

  /** A worker that left Run did so with nothing queued and nothing in flight, so every task ever scheduled
      has been dispatched and has finished, and the unpinned callbacks ran in the order they were given. */
  lemma ExitMeansAllDone(s0: State, acts: seq<Action>, w: nat)
    requires Init(s0) && Legal(s0, acts) && NoLateSubmit(s0, acts)
    requires w < |After(s0, acts).workers| && After(s0, acts).workers[w].pc == Exited
    ensures
      var s := After(s0, acts);
      && s.tasks == [] && s.active == 0
      && s.finished == multiset(s.scheduled)
      && Plain(TasksOf(s.dispatched)) == Plain(s.scheduled)
  {
    hide Sum;
    EveryRunKeepsInv(s0, acts);
    QuietInEveryRun(s0, acts);
    var s := After(s0, acts);
    SumZero(s.workers, InFlight);
    forall t: Task
      ensures s.finished[t] == multiset(s.scheduled)[t]
    {
      SumZero(s.workers, Carries(t));
      assert forall x :: x in s.workers ==> InFlight(x) == 0;
    }
  }

  /** The ban on late submissions is exactly what stability needs: in a run where Stopping() is true, the next
      action undoes it if and only if it is a submission from outside. */
  lemma OnlyLateSubmissionUndoesStopping(s0: State, acts: seq<Action>, a: Action)
    requires Init(s0) && Legal(s0, acts) && Stopping(After(s0, acts)) && Enabled(After(s0, acts), a)
    ensures Stopping(Apply(After(s0, acts), a)) <==> OnTime(After(s0, acts), a)
  {
    var s := After(s0, acts);
    EveryRunKeepsInv(s0, acts);
    if OnTime(s, a) {
      StoppingStep(s, a);
    } else {
      assert Apply(s, a).tasks == s.tasks + [a.task];
    }
  }

  lemma Extended(s0: State, acts: seq<Action>, s: State, a: Action)
    requires Legal(s0, acts) && After(s0, acts) == s && Enabled(s, a)
    ensures Legal(s0, acts + [a]) && After(s0, acts + [a]) == Apply(s, a)
  {
    hide Enabled, Apply;
    var more := acts + [a];
    assert more[..|more| - 1] == acts && more[|more| - 1] == a;
  }

  /** Such a run exists: Stop, then a submission. */
  lemma LateSubmissionRun(s0: State, t: Task)
    requires Init(s0) && t.fiber.None? && t.cb.Some?
    ensures Legal(s0, [Stop]) && Stopping(After(s0, [Stop]))
    ensures Legal(s0, [Stop, Submit(t)]) && !Stopping(After(s0, [Stop, Submit(t)]))
  {
    hide Legal, After;
    EmptyRun(s0);
    assert [] + [Stop] == [Stop] && [Stop] + [Submit(t)] == [Stop, Submit(t)];
    var s1 := Apply(s0, Stop);
    assert Stopping(s1);
    Extended(s0, [], s0, Stop);
    Extended(s0, [Stop], s1, Submit(t));
    assert Apply(s1, Submit(t)).tasks == [t];
  }

  lemma EmptyRun(s0: State)
    ensures Legal(s0, []) && After(s0, []) == s0
  {
  }
}
