/** Wake-up sources. A fiber committed to suspending is held by exactly one of: an event context, an armed
    timer, a popped timer callback, a callback about to schedule it, a queue entry, or the worker about to
    resume it. Every other fiber is held by none. */
module WakeTokens {
  import opened Sums
  import opened Tasks
  import opened IoManager
  import opened Protocol

  // ------------------------------------------------------------------ counting holders

  function CbHolds(cb: Callback, f: FiberId): nat { if cb == WakeCb(f) then 1 else 0 }

  function TaskHolds(t: Task, f: FiberId): nat {
    (if t.fiber == Some(f) then 1 else 0) + (if t.cb.Some? then CbHolds(t.cb.value, f) else 0)
  }

  function InTask(f: FiberId): Task -> nat { (t: Task) => TaskHolds(t, f) }

  function InCb(f: FiberId): Callback -> nat { (cb: Callback) => CbHolds(cb, f) }

  function InTimer(f: FiberId): Timer -> nat { (t: Timer) => CbHolds(t.cb, f) }

  function InContext(f: FiberId): FdState -> nat {
    (c: FdState) => TaskHolds(c.read.Wake(), f) + TaskHolds(c.write.Wake(), f)
  }

  function InWorker(f: FiberId): Worker -> nat {
    (w: Worker) => (if w.pc.Got? then TaskHolds(w.pc.task, f) else 0) + Sum(w.cbs, InCb(f))
  }

  function InProg(f: FiberId): Prog -> nat { (p: Prog) => if p == WakeNext(f) then 1 else 0 }

  ghost function IoHolders(io: Io, f: FiberId): nat {
    Sum(io.contexts, InContext(f)) + Sum(io.tasks, InTask(f))
  }

  /** The number of places that will wake `f`. */
  ghost function Holders(s: State, f: FiberId): nat {
    IoHolders(s.io, f) + Sum(s.timers, InTimer(f)) + Sum(s.workers, InWorker(f)) + Sum(s.progs, InProg(f))
  }

  /** Fibers that are to be woken: committed to suspend, and not dropped by DelEvent. */
  predicate Awaited(s: State, f: FiberId) { f < |s.progs| && Waits(s.progs[f]) && f !in s.lost }

  ghost predicate OneHolder(s: State, f: FiberId) {
    Holders(s, f) == if Awaited(s, f) then 1 else 0
  }

  ghost predicate Tokens(s: State) { forall f: FiberId :: OneHolder(s, f) }

  // ------------------------------------------------------------------ IO operations move holders

  lemma EnqueueHolders(io: Io, t: Task, f: FiberId)
    ensures IoHolders(io.(tasks := Scheduled(io.tasks, t)), f) == IoHolders(io, f) + TaskHolds(t, f)
  {
    hide Sum;
    SumAppend(io.tasks, t, InTask(f));
  }

  lemma AddHolders(io: Io, fd: nat, e: Event, holder: EventContext, fail: bool, f: FiberId)
    requires Ledger(io) && Sized(io) && MayAdd(io, fd, e)
    ensures
      var (io', ok) := AddEvent(io, fd, e, holder, fail);
      IoHolders(io', f) == IoHolders(io, f) + if ok then TaskHolds(holder.Wake(), f) else 0
  {
    hide Sum;
    GrownHasRoom(io.contexts, fd);
    GrownSum(io.contexts, fd, InContext(f));
    var cs := Grown(io.contexts, fd);
    assert cs[fd].Ok();
    assert TaskHolds(EMPTY.Wake(), f) == 0;
    SumUpdate(cs, fd, cs[fd].SetCtx(e, holder).(events := cs[fd].events.With(e)), InContext(f));
  }

  lemma ClearHolders(cs: seq<FdState>, fd: nat, e: Event, f: FiberId)
    requires fd < |cs|
    ensures Sum(cs[fd := cs[fd].Clear(e)], InContext(f)) + TaskHolds(cs[fd].Ctx(e).Wake(), f)
      == Sum(cs, InContext(f))
  {
    hide Sum;
    assert TaskHolds(EMPTY.Wake(), f) == 0;
    SumUpdate(cs, fd, cs[fd].Clear(e), InContext(f));
  }

  lemma DelHolders(io: Io, fd: nat, e: Event, fail: bool, f: FiberId)
    ensures
      var (io', ok) := DelEvent(io, fd, e, fail);
      && (ok ==> io.Registered(fd, e))
      && IoHolders(io', f) + (if ok then TaskHolds(io.contexts[fd].Ctx(e).Wake(), f) else 0) == IoHolders(io, f)
  {
    hide Sum;
    if io.Registered(fd, e) { ClearHolders(io.contexts, fd, e, f); }
  }

  /** TriggerEvent moves the holder from the context to the queue. */
  lemma TriggerHolders(io: Io, fd: nat, e: Event, f: FiberId)
    requires io.Registered(fd, e)
    ensures IoHolders(Trigger(io, fd, e), f) == IoHolders(io, f)
  {
    hide Sum;
    ClearHolders(io.contexts, fd, e, f);
    SumAppend(io.tasks, io.contexts[fd].Ctx(e).Wake(), InTask(f));
  }

  lemma TriggerMaskHolders(io: Io, fd: nat, m: Mask, f: FiberId)
    requires m.Within(io.Events(fd))
    ensures IoHolders(TriggerMask(io, fd, m), f) == IoHolders(io, f)
  {
    hide Sum;
    if m.read { TriggerHolders(io, fd, READ, f); }
    if m.write { TriggerHolders(TriggerIf(io, fd, READ, m.read), fd, WRITE, f); }
  }

  lemma CancelHolders(io: Io, fd: nat, e: Event, fail: bool, f: FiberId)
    ensures IoHolders(CancelEvent(io, fd, e, fail).0, f) == IoHolders(io, f)
  {
    hide Sum;
    if io.Registered(fd, e) { TriggerHolders(io, fd, e, f); }
  }

  lemma CancelAllHolders(io: Io, fd: nat, fail: bool, f: FiberId)
    ensures IoHolders(CancelAll(io, fd, fail).0, f) == IoHolders(io, f)
  {
    hide Sum;
    TriggerMaskHolders(io, fd, io.Events(fd), f);
  }

  lemma ReadyHolders(io: Io, fd: nat, r: Ready, fail: bool, f: FiberId)
    requires ReadyAsserts(io, fd, r, fail)
    ensures IoHolders(HandleReady(io, fd, r, fail), f) == IoHolders(io, f)
  {
    hide Sum;
    if Real(io, fd, r).Within(io.Events(fd)) { TriggerMaskHolders(io, fd, Real(io, fd, r), f); }
  }

  // ------------------------------------------------------------------ the invariant

  ghost predicate Shape(s: State) {
    && |s.states| == |s.progs| == |s.commits| == |s.dispatches|
    && Sized(s.io)
  }

  /** At most one worker runs a fiber; a fiber taken from the queue stays READY until it is resumed. */
  ghost predicate OneRunner(s: State) {
    && (forall w :: 0 <= w < |s.workers| && s.workers[w].pc.Running? ==>
          s.workers[w].pc.fiber < |s.states| && s.states[s.workers[w].pc.fiber] == RUNNING)
    && (forall v, w :: 0 <= v < w < |s.workers| && s.workers[v].pc.Running? && s.workers[w].pc.Running? ==>
          s.workers[v].pc.fiber != s.workers[w].pc.fiber)
    && (forall w :: 0 <= w < |s.workers| && s.workers[w].pc.Got? ==> ResumeAsserts(s, w))
    && (forall f :: 0 <= f < |s.states| && s.states[f] == TERM ==> f < |s.progs| && !Waits(s.progs[f]))
  }

  /** Recurring timers and cancellable timeout timers never hold a fiber. */
  ghost predicate TimerKinds(s: State) {
    && (forall t :: t in s.timers ==> t.id < s.nextTimer && (t.recurring ==> t.cb.UserCb?))
    && (forall p :: p in s.progs && (p.IoArm? || p.IoWait? || p.IoWoken?) && p.timer.Some? ==>
          && p.timer.value < s.nextTimer
          && forall t :: t in s.timers && t.id == p.timer.value ==> t.cb.TimeoutCb?)
  }

  /** Per fiber: dispatched exactly once per suspension, except that the current one is still open. */
  ghost predicate Books(s: State) {
    && |s.progs| == |s.commits| == |s.dispatches|
    && (forall f :: 0 <= f < |s.progs| ==>
          s.commits[f] == s.dispatches[f] + if Waits(s.progs[f]) then 1 else 0)
  }

  ghost predicate LostWait(s: State) {
    forall f :: f in s.lost ==> f < |s.progs| && Waits(s.progs[f])
  }

  function InFlight(w: Worker): nat { if w.pc.Got? || w.pc.Running? || w.pc.Ran? then 1 else 0 }

  function InIdle(w: Worker): nat {
    if w.pc.Fetching? || w.pc.Exited? || InFlight(w) == 1 then 0 else 1
  }

  ghost predicate Counters(s: State) {
    s.active == Sum(s.workers, InFlight) && s.idle == Sum(s.workers, InIdle)
  }

  /** A queued or taken task is a fiber or a callback, not both. */
  predicate OneKind(t: Task) { t.fiber.None? || t.cb.None? }

  ghost predicate Kinds(s: State) {
    && (forall t :: t in s.io.tasks ==> OneKind(t))
    && (forall w :: 0 <= w < |s.workers| && s.workers[w].pc.Got? ==> OneKind(s.workers[w].pc.task))
  }

  /** Popped callbacks and reports exist only while the idle loop delivers them. */
  ghost predicate IdleShape(s: State) {
    forall w :: 0 <= w < |s.workers| ==>
      && (s.workers[w].cbs != [] ==> s.workers[w].pc == Delivering)
      && (s.workers[w].reports != [] ==> s.workers[w].pc == Delivering || s.workers[w].pc == Expiring)
  }

  ghost predicate RunBy(s: State, f: FiberId) {
    exists w :: 0 <= w < |s.workers| && s.workers[w].pc == Running(f)
  }

  /** A READY fiber is committed, a RUNNING one is on a worker, a TERM one has finished. */
  ghost predicate Placed(s: State) {
    forall f :: 0 <= f < |s.states| && f < |s.progs| ==>
      && (s.states[f] == READY ==> Waits(s.progs[f]))
      && (s.states[f] == RUNNING ==> RunBy(s, f))
      && (s.states[f] == TERM ==> s.progs[f] == Done)
  }

  ghost predicate Inv(s: State) {
    && Shape(s) && Kinds(s) && Placed(s) && IdleShape(s) && Tokens(s) && OneRunner(s)
    && TimerKinds(s) && Books(s) && LostWait(s)
    && Counters(s) && Ledger(s.io) && KernelAgrees(s.io, s.clobbered)
  }

  // ------------------------------------------------------------------ helpers

  lemma PcHolders(s: State, w: nat, pc: Pc, f: FiberId)
    requires w < |s.workers|
    ensures Sum(SetPc(s, w, pc).workers, InWorker(f)) +
            (if s.workers[w].pc.Got? then TaskHolds(s.workers[w].pc.task, f) else 0)
      == Sum(s.workers, InWorker(f)) + if pc.Got? then TaskHolds(pc.task, f) else 0
  {
    hide Sum;
    SumUpdate(s.workers, w, s.workers[w].(pc := pc), InWorker(f));
  }

  lemma ProgHolders(progs: seq<Prog>, g: FiberId, p: Prog, f: FiberId)
    requires g < |progs|
    ensures Sum(progs[g := p], InProg(f)) + (if progs[g] == WakeNext(f) then 1 else 0)
      == Sum(progs, InProg(f)) + if p == WakeNext(f) then 1 else 0
  {
    hide Sum;
    SumUpdate(progs, g, p, InProg(f));
  }

  /** A queue entry for a fiber means that fiber is awaited. */
  lemma QueuedIsAwaited(s: State, i: nat)
    requires Tokens(s) && i < |s.io.tasks| && s.io.tasks[i].fiber.Some?
    ensures Awaited(s, s.io.tasks[i].fiber.value)
  {
    hide Sum;
    var f := s.io.tasks[i].fiber.value;
    assert OneHolder(s, f);
    SumAtLeast(s.io.tasks, i, InTask(f));
  }

  lemma GotIsAwaited(s: State, w: nat)
    requires Tokens(s) && w < |s.workers| && s.workers[w].pc.Got? && s.workers[w].pc.task.fiber.Some?
    ensures Awaited(s, s.workers[w].pc.task.fiber.value)
  {
    hide Sum;
    var f := s.workers[w].pc.task.fiber.value;
    assert OneHolder(s, f);
    SumAtLeast(s.workers, w, InWorker(f));
  }

  /** Two workers never hold the same fiber. */
  lemma GotIsUnique(s: State, v: nat, w: nat)
    requires Tokens(s) && v < |s.workers| && w < |s.workers| && v != w
    requires s.workers[v].pc.Got? && s.workers[v].pc.task.fiber.Some?
    requires s.workers[w].pc.Got? && s.workers[w].pc.task.fiber.Some?
    ensures s.workers[v].pc.task.fiber != s.workers[w].pc.task.fiber
  {
    hide Sum;
    var f := s.workers[v].pc.task.fiber.value;
    assert OneHolder(s, f);
    if v < w { SumAtLeastTwo(s.workers, v, w, InWorker(f)); }
    else { SumAtLeastTwo(s.workers, w, v, InWorker(f)); }
  }
}
