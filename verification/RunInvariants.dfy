/** The invariant of the runtime holds in every reachable state, for any number of workers and with outside
    submitters; and a one-worker IO manager leaves Run only when nothing is left to do. */
module RunInvariants {
  import opened Sums
  import opened Tasks
  import opened IoManager
  import opened Protocol
  import opened WakeTokens
  import opened WakeSteps
  import opened WakeRuns

  // ------------------------------------------------------------------ the IO part of a step

  ghost predicate IoInv(io: Io, clobbered: set<nat>) {
    Ledger(io) && KernelAgrees(io, clobbered) && Sized(io) && forall t :: t in io.tasks ==> OneKind(t)
  }

  lemma EnqueueIo(io: Io, t: Task, clobbered: set<nat>)
    requires IoInv(io, clobbered) && OneKind(t)
    ensures IoInv(io.(tasks := Scheduled(io.tasks, t)), clobbered)
  {
    var io' := io.(tasks := Scheduled(io.tasks, t));
    forall k: nat ensures InStep(io', k, clobbered) { assert InStep(io, k, clobbered); }
  }

  lemma TriggerMaskTasks(io: Io, fd: nat, m: Mask)
    requires m.Within(io.Events(fd)) && forall t :: t in io.tasks ==> OneKind(t)
    ensures forall t :: t in TriggerMask(io, fd, m).tasks ==> OneKind(t)
    ensures |TriggerMask(io, fd, m).contexts| == |io.contexts|
  {
  }

  lemma AddIo(io: Io, fd: nat, e: Event, holder: EventContext, fail: bool, clobbered: set<nat>)
    requires IoInv(io, clobbered) && MayAdd(io, fd, e) && holder.Held()
    ensures IoInv(AddEvent(io, fd, e, holder, fail).0, clobbered)
  {
    AddEventLedger(io, fd, e, holder, fail);
    AddEventKernel(io, fd, e, holder, fail, clobbered);
    GrownHasRoom(io.contexts, fd);
  }

  lemma CancelAllIo(io: Io, fd: nat, fail: bool, clobbered: set<nat>)
    requires IoInv(io, clobbered)
    ensures IoInv(CancelAll(io, fd, fail).0, clobbered)
  {
    CancelAllLedger(io, fd, fail);
    CancelAllKernel(io, fd, fail, clobbered);
    TriggerMaskTasks(io, fd, io.Events(fd));
  }

  lemma CancelIo(io: Io, fd: nat, e: Event, fail: bool, clobbered: set<nat>)
    requires IoInv(io, clobbered)
    ensures IoInv(CancelEvent(io, fd, e, fail).0, clobbered)
  {
    CancelEventLedger(io, fd, e, fail);
    CancelEventKernel(io, fd, e, fail, clobbered);
  }

  lemma OpIo(io: Io, op: IoOp, g: FiberId, clobbered: set<nat>)
    requires IoInv(io, clobbered) && IoOpEnabled(io, op)
    ensures IoInv(IoOpApply(io, op, g), clobbered)
  {
    match op
    case OpAdd(fd, e, id, fail) => AddIo(io, fd, e, Holder(0, Some(UserCb(id)), g), fail, clobbered);
    case OpDel(fd, e, fail) =>
      DelEventLedger(io, fd, e, fail);
      DelEventKernel(io, fd, e, fail, clobbered);
    case OpCancel(fd, e, fail) => CancelIo(io, fd, e, fail, clobbered);
    case OpCancelAll(fd, fail) => CancelAllIo(io, fd, fail, clobbered);
  }

  lemma ReadyIo(io: Io, fd: nat, r: Ready, fail: bool, clobbered: set<nat>)
    requires IoInv(io, clobbered) && ReadyAsserts(io, fd, r, fail)
    ensures IoInv(HandleReady(io, fd, r, fail), clobbered)
  {
    HandleReadyLedger(io, fd, r, fail);
    HandleReadyKernel(io, fd, r, fail, clobbered);
    if Real(io, fd, r).Within(io.Events(fd)) { TriggerMaskTasks(io, fd, Real(io, fd, r)); }
  }

  lemma CloseIo(io: Io, fd: nat, clobbered: set<nat>)
    requires IoInv(io, clobbered)
    ensures IoInv(Closed(io, fd), Left(io, fd, clobbered))
  {
    CloseKeepsAgreement(io, fd, clobbered);
  }

  lemma CodeIoInv(s: State, w: nat, g: FiberId, a: FiberStep)
    requires IoInv(s.io, s.clobbered)
    requires w < |s.workers| && FiberOk(s, g) && FiberEnabled(s, g, a) && IsCode(a)
    ensures IoInv(FiberApply(s, w, g, a).io, FiberApply(s, w, g, a).clobbered)
  {
    match a
    case CodeSchedule(t) => EnqueueIo(s.io, t, s.clobbered);
    case CodeSpawn(thread) => EnqueueIo(s.io, Task(Some(|s.progs|), None, thread), s.clobbered);
    case CodeIo(op) => OpIo(s.io, op, g, s.clobbered);
    case CodeTimer(op) =>
    case SelfCommit => EnqueueIo(s.io, FiberTask(g), s.clobbered);
    case SleepCommit(pos) =>
    case IoBegin(fd, e, at) =>
    case CloseCancel(fd, fail) => CancelAllIo(s.io, fd, fail, s.clobbered);
  }

  lemma HookIoInv(s: State, w: nat, g: FiberId, a: FiberStep)
    requires IoInv(s.io, s.clobbered)
    requires w < |s.workers| && FiberOk(s, g) && FiberEnabled(s, g, a) && !IsCode(a)
    ensures IoInv(FiberApply(s, w, g, a).io, FiberApply(s, w, g, a).clobbered)
  {
    var p := s.progs[g];
    match a
    case IoRegister(fail) => AddIo(s.io, p.fd, p.e, Holder(0, None, g), fail, s.clobbered);
    case CloseFd => CloseIo(s.io, p.fd, s.clobbered);
    case RunWake => EnqueueIo(s.io, FiberTask(p.target), s.clobbered);
    case RunCancel(fail) => CancelIo(s.io, p.fd, p.e, fail, s.clobbered);
    case _ =>
  }

  // ------------------------------------------------------------------ placement, counters, idle shape

  lemma FiberPlaced(s: State, s': State, w: nat, g: FiberId, departs: bool)
    requires Shape(s) && Placed(s) && OneRunner(s)
    requires w < |s.workers| && FiberOk(s, g) && s.workers[w].pc == Running(g)
    requires FiberFrame(s, s', w, g)
    requires if departs then Leaves(s, s', w, g) else Stays(s, s')
    requires departs ==> (s'.states[g] == READY ==> Waits(s'.progs[g])) &&
                         (s'.states[g] == TERM ==> s'.progs[g] == Done)
    ensures Placed(s')
  {
    assert s.states[g] == RUNNING;
    forall f | 0 <= f < |s'.states| && s'.states[f] == RUNNING
      ensures RunBy(s', f)
    {
      assert f < |s.states| && s.states[f] == RUNNING;
      var v :| 0 <= v < |s.workers| && s.workers[v].pc == Running(f);
      assert s'.workers[v].pc == Running(f);
    }
  }

  lemma LeavePlaced(s: State, w: nat, g: FiberId, a: FiberStep)
    requires w < |s.workers| && FiberOk(s, g) && FiberEnabled(s, g, a) && Departs(a)
    ensures
      var s' := FiberApply(s, w, g, a);
      g < |s'.states| && g < |s'.progs|
      && (s'.states[g] == READY ==> Waits(s'.progs[g])) && (s'.states[g] == TERM ==> s'.progs[g] == Done)
  {
  }

  /** Other workers keep what they do; `w` neither runs a fiber before nor after. */
  ghost predicate WorkerMoves(s: State, s': State, w: nat) {
    && w < |s.workers| == |s'.workers|
    && (forall v :: 0 <= v < |s.workers| && v != w ==> s'.workers[v] == s.workers[v])
    && !s.workers[w].pc.Running? && !s'.workers[w].pc.Running?
    && s'.states == s.states && s'.progs == s.progs
  }

  lemma MovePlaced(s: State, s': State, w: nat)
    requires Placed(s) && WorkerMoves(s, s', w)
    ensures Placed(s')
  {
    forall f | 0 <= f < |s'.states| && f < |s'.progs| && s'.states[f] == RUNNING
      ensures RunBy(s', f)
    {
      var v :| 0 <= v < |s.workers| && s.workers[v].pc == Running(f);
      assert s'.workers[v].pc == Running(f);
    }
  }

  lemma ResumePlaced(s: State, w: nat)
    requires Shape(s) && Placed(s) && w < |s.workers| && RunEnabled(s, w, Resume)
    ensures Placed(ResumeTask(s, w))
  {
    var s' := ResumeTask(s, w);
    forall f | 0 <= f < |s'.states| && s'.states[f] == RUNNING
      ensures RunBy(s', f)
    {
      if s'.workers[w].pc == Running(f) {
      } else {
        var v :| 0 <= v < |s.workers| && s.workers[v].pc == Running(f);
        assert s'.workers[v].pc == Running(f);
      }
    }
  }

  /** A step of worker `w` changes only that worker's share of the two counters. */
  lemma CountersMove(s: State, s': State, w: nat)
    requires Counters(s) && w < |s.workers| == |s'.workers| && s'.workers == s.workers[w := s'.workers[w]]
    requires s'.active == s.active + InFlight(s'.workers[w]) - InFlight(s.workers[w])
    requires s'.idle == s.idle + InIdle(s'.workers[w]) - InIdle(s.workers[w])
    ensures Counters(s')
  {
    hide Sum;
    SumUpdate(s.workers, w, s'.workers[w], InFlight);
    SumUpdate(s.workers, w, s'.workers[w], InIdle);
  }

  lemma RunCounters(s: State, w: nat, a: RunStep)
    requires Counters(s) && w < |s.workers| && RunEnabled(s, w, a)
    ensures Counters(RunApply(s, w, a))
  {
    hide Sum, IsPick, NoPick, Removed;
    SumUpdate(s.workers, w, RunApply(s, w, a).workers[w], InFlight);
    SumUpdate(s.workers, w, RunApply(s, w, a).workers[w], InIdle);
  }

  lemma IdleCounters(s: State, w: nat, a: IdleStep)
    requires Counters(s) && w < |s.workers| && IdleEnabled(s, w, a)
    ensures Counters(IdleApply(s, w, a))
  {
    hide Counters, HandleReady, ReadyAsserts, Scheduled;
    CountersMove(s, IdleApply(s, w, a), w);
  }

  lemma FiberCounters(s: State, s': State, w: nat, g: FiberId, departs: bool)
    requires Shape(s) && Counters(s) && w < |s.workers| && FiberOk(s, g) && s.workers[w].pc == Running(g)
    requires FiberFrame(s, s', w, g)
    requires if departs then Leaves(s, s', w, g) else Stays(s, s')
    ensures Counters(s')
  {
    hide Sum;
    if departs {
      SumUpdate(s.workers, w, s'.workers[w], InFlight);
      SumUpdate(s.workers, w, s'.workers[w], InIdle);
    }
  }

  // ------------------------------------------------------------------ the steps

  lemma SubmitCbStep(s: State, t: Task)
    requires Inv(s) && UserTask(t)
    ensures Inv(Enqueue(s, t))
  {
    hide KernelAgrees, Ledger;
    var s' := Enqueue(s, t);
    EnqueueIo(s.io, t, s.clobbered);
    forall f: FiberId ensures OneHolder(s', f) { assert OneHolder(s, f); SubmitOne(s, t, f); }
    SameWorkersPlaced(s, s');
    SameRunning(s, s');
  }

  lemma SubmitFiberStep(s: State, thread: Option<nat>)
    requires Inv(s)
    ensures Inv(Spawn(s, thread))
  {
    hide KernelAgrees, Ledger;
    var s' := Spawn(s, thread);
    EnqueueIo(s.io, Task(Some(|s.progs|), None, thread), s.clobbered);
    forall f: FiberId ensures OneHolder(s', f) { assert OneHolder(s, f); SpawnOne(s, thread, f); }
    SpawnRest(s, thread);
  }

  lemma StopStep(s: State)
    requires Inv(s)
    ensures Inv(s.(stopping := true))
  {
    hide KernelAgrees, Ledger;
    var s' := s.(stopping := true);
    forall f: FiberId ensures OneHolder(s', f) { assert OneHolder(s, f); }
    SameWorkersPlaced(s, s');
    SameRunning(s, s');
  }

  lemma OutsideTimerStep(s: State, op: TimerOp)
    requires Inv(s) && TimerOpEnabled(s.timers, op)
    ensures Inv(TimerOpApply(s, op))
  {
    hide KernelAgrees, Ledger;
    var s' := TimerOpApply(s, op);
    forall f: FiberId ensures OneHolder(s', f) { assert OneHolder(s, f); TimerOpOne(s, op, f); }
    TimerOpKinds(s, op);
    TimerOpFrame(s, op);
    SameWorkersPlaced(s, s');
    SameRunning(s, s');
  }

  lemma TimerOpFrame(s: State, op: TimerOp)
    requires TimerOpEnabled(s.timers, op)
    ensures TimerOpApply(s, op) == s.(timers := TimerOpApply(s, op).timers, nextTimer := TimerOpApply(s, op).nextTimer)
  {
  }

  lemma OutsideIoStep(s: State, op: IoOp)
    requires Inv(s) && IoOpEnabled(s.io, op)
    ensures Inv(IoCall(s, op, 0))
  {
    hide KernelAgrees, Ledger, IoOpApply, Dropped;
    var s' := IoCall(s, op, 0);
    OpIo(s.io, op, 0, s.clobbered);
    forall f: FiberId ensures OneHolder(s', f) { CodeIoOne(s, op, 0, f); }
    forall f | f in s'.lost
      ensures f < |s'.progs| && Waits(s'.progs[f])
    {
      if f !in s.lost { DroppedAwaited(s, op, f); }
    }
    SameWorkersPlaced(s, s');
    SameRunning(s, s');
  }

  lemma SubmitStep(s: State, a: Action)
    requires Inv(s) && Enabled(s, a) && !a.OnRun? && !a.OnFiber? && !a.OnIdle?
    ensures Inv(Apply(s, a))
  {
    hide Inv, TimerOpApply, IoCall;
    match a
    case Submit(t) => SubmitCbStep(s, t);
    case SubmitFiber(thread) => SubmitFiberStep(s, thread);
    case OutsideTimer(op) => OutsideTimerStep(s, op);
    case OutsideIo(op) => OutsideIoStep(s, op);
    case Stop => StopStep(s);
  }

  lemma SameWorkersPlaced(s: State, s': State)
    requires Placed(s) && s'.workers == s.workers && s'.states == s.states && s'.progs == s.progs
    ensures Placed(s')
  {
    forall f | 0 <= f < |s'.states| && f < |s'.progs| && s'.states[f] == RUNNING
      ensures RunBy(s', f)
    {
      assert RunBy(s, f);
    }
  }

  lemma SameRunning(s: State, s': State)
    requires OneRunner(s) && s'.workers == s.workers && s'.states == s.states && s'.progs == s.progs
    ensures OneRunner(s')
  {
    forall w | 0 <= w < |s'.workers| && s'.workers[w].pc.Got? ensures ResumeAsserts(s', w)
    { assert ResumeAsserts(s, w); }
  }

  lemma SpawnRest(s: State, thread: Option<nat>)
    requires Shape(s) && OneRunner(s) && Placed(s) && Books(s) && TimerKinds(s) && LostWait(s)
    ensures
      var s' := Spawn(s, thread);
      OneRunner(s') && Placed(s') && Books(s') && TimerKinds(s') && LostWait(s')
  {
    var s' := Spawn(s, thread);
    forall w | 0 <= w < |s'.workers| && s'.workers[w].pc.Got? ensures ResumeAsserts(s', w)
    { assert ResumeAsserts(s, w); }
    forall f | 0 <= f < |s'.states| && s'.states[f] == RUNNING
      ensures RunBy(s', f)
    {
      assert RunBy(s, f);
    }
  }

  lemma RunTokens(s: State, w: nat, a: RunStep)
    requires Inv(s) && w < |s.workers| && RunEnabled(s, w, a)
    ensures Tokens(RunApply(s, w, a))
  {
    hide Sum;
    forall f: FiberId
      ensures OneHolder(RunApply(s, w, a), f)
    {
      assert OneHolder(s, f);
      if a.Take? {
        TakeOne(s, w, a.i, f);
      } else if a.Resume? {
        if s.workers[w].pc.task.fiber.Some? {
          GotIsAwaited(s, w);
          ResumeFiberOne(s, w, f);
        } else {
          ResumeCbOne(s, w, f);
        }
      } else {
        MoveOne(s, w, a, f);
      }
    }
  }

  lemma TakeStep(s: State, w: nat, i: nat)
    requires Inv(s) && w < |s.workers| && RunEnabled(s, w, Take(i))
    ensures Inv(RunApply(s, w, Take(i)))
  {
    hide Sum;
    var s' := RunApply(s, w, Take(i));
    RunTokens(s, w, Take(i));
    RunCounters(s, w, Take(i));
    TakeRunning(s, w, i);
    MovePlaced(s, s', w);
    assert forall t :: t in s'.io.tasks ==> t in s.io.tasks;
    forall k: nat ensures InStep(s'.io, k, s.clobbered) { assert InStep(s.io, k, s.clobbered); }
  }

  lemma ResumeStep(s: State, w: nat)
    requires Inv(s) && w < |s.workers| && RunEnabled(s, w, Resume)
    ensures Inv(ResumeTask(s, w))
  {
    hide Sum;
    RunTokens(s, w, Resume);
    RunCounters(s, w, Resume);
    ResumeRunning(s, w);
    ResumePlaced(s, w);
    ResumeBooks(s, w);
    ResumeLost(s, w);
    ResumeTimers(s, w);
  }

  lemma OtherRunStep(s: State, w: nat, a: RunStep)
    requires Inv(s) && w < |s.workers| && RunEnabled(s, w, a) && !a.Take? && !a.Resume?
    ensures Inv(RunApply(s, w, a))
  {
    hide Sum, Tokens, Counters, OneRunner, Placed, Ledger, KernelAgrees;
    var s' := RunApply(s, w, a);
    RunTokens(s, w, a);
    RunCounters(s, w, a);
    MoveRunning(s, s', w);
    MovePlaced(s, s', w);
  }

  lemma FiberTokens(s: State, w: nat, g: FiberId, a: FiberStep)
    requires Inv(s) && w < |s.workers| && FiberOk(s, g) && FiberEnabled(s, g, a) && s.workers[w].pc == Running(g)
    ensures Tokens(FiberApply(s, w, g, a))
  {
    hide Sum;
    forall f: FiberId
      ensures OneHolder(FiberApply(s, w, g, a), f)
    {
      if IsCode(a) { CodeOne(s, w, g, a, f); } else { HookOne(s, w, g, a, f); }
    }
  }

  lemma FiberStepInv(s: State, w: nat, g: FiberId, a: FiberStep)
    requires Inv(s) && w < |s.workers| && FiberOk(s, g) && FiberEnabled(s, g, a) && s.workers[w].pc == Running(g)
    ensures Inv(FiberApply(s, w, g, a))
  {
    FiberTokens(s, w, g, a);
    FiberLost(s, w, g, a);
    if IsCode(a) { CodeIoInv(s, w, g, a); CodeTimers(s, w, g, a); }
    else { HookIoInv(s, w, g, a); HookTimers(s, w, g, a); }
    Frame(s, w, g, a);
    if Departs(a) { LeavePlaced(s, w, g, a); }
    FiberStepRest(s, FiberApply(s, w, g, a), w, g, Departs(a));
  }

  lemma FiberStepRest(s: State, s': State, w: nat, g: FiberId, departs: bool)
    requires Inv(s) && w < |s.workers| && FiberOk(s, g) && s.workers[w].pc == Running(g)
    requires FiberFrame(s, s', w, g)
    requires if departs then Leaves(s, s', w, g) else Stays(s, s')
    requires departs ==> (s'.states[g] == READY ==> Waits(s'.progs[g])) &&
                         (s'.states[g] == TERM ==> s'.progs[g] == Done)
    requires IoInv(s'.io, s'.clobbered)
    ensures Shape(s') && Kinds(s') && Placed(s') && IdleShape(s') && OneRunner(s') && Books(s') && Counters(s')
  {
    FiberPlaced(s, s', w, g, departs);
    FiberRunning(s, s', w, g, departs);
    FiberBooks(s, s', w, g);
    FiberCounters(s, s', w, g, departs);
  }

  lemma IdleTokens(s: State, w: nat, a: IdleStep)
    requires Inv(s) && w < |s.workers| && IdleEnabled(s, w, a)
    ensures Tokens(IdleApply(s, w, a))
  {
    hide Sum;
    forall f: FiberId
      ensures OneHolder(IdleApply(s, w, a), f)
    {
      assert OneHolder(s, f);
      IdleOne(s, w, a, f);
    }
  }

  lemma IdleIo(s: State, w: nat, a: IdleStep)
    requires IoInv(s.io, s.clobbered) && w < |s.workers| && IdleEnabled(s, w, a)
    ensures IoInv(IdleApply(s, w, a).io, s.clobbered)
  {
    match a
    case ScheduleCb => EnqueueIo(s.io, CbTask(s.workers[w].cbs[0]), s.clobbered);
    case HandleReport(fail) =>
      var r := s.workers[w].reports[0];
      ReadyIo(s.io, r.fd, r.ready, fail, s.clobbered);
    case _ =>
  }

  lemma IdleFrame(s: State, w: nat, a: IdleStep)
    requires w < |s.workers| && IdleEnabled(s, w, a)
    ensures
      var s' := IdleApply(s, w, a);
      && WorkerMoves(s, s', w) && !s'.workers[w].pc.Got?
      && s'.commits == s.commits && s'.dispatches == s.dispatches && s'.lost == s.lost
      && s'.clobbered == s.clobbered && s'.nextTimer == s.nextTimer
      && (!a.Expire? ==> s'.timers == s.timers)
      && (IdleShape(s) ==> IdleShape(s'))
  {
  }

  lemma IdleStepInv(s: State, w: nat, a: IdleStep)
    requires Inv(s) && w < |s.workers| && IdleEnabled(s, w, a)
    ensures Inv(IdleApply(s, w, a))
  {
    IdleTokens(s, w, a);
    IdleIo(s, w, a);
    IdleFrame(s, w, a);
    IdleCounters(s, w, a);
    if a.Expire? { ExpireTimers(s, w, a.k, a.after); }
    var s' := IdleApply(s, w, a);
    MoveRunning(s, s', w);
    MovePlaced(s, s', w);
  }

  lemma Step(s: State, a: Action)
    requires Inv(s) && Enabled(s, a)
    ensures Inv(Apply(s, a))
  {
    match a
    case OnRun(w, r) =>
      if r.Take? { TakeStep(s, w, r.i); }
      else if r.Resume? { ResumeStep(s, w); }
      else { OtherRunStep(s, w, r); }
    case OnFiber(w, st) => FiberStepInv(s, w, s.workers[w].pc.fiber, st);
    case OnIdle(w, i) => IdleStepInv(s, w, i);
    case _ => SubmitStep(s, a);
  }

  // ------------------------------------------------------------------ whole runs

  lemma InitHolder(s: State, f: FiberId)
    requires Init(s)
    ensures OneHolder(s, f)
  {
    hide Sum;
    SumEmpty(InCb(f));
    SumEmpty(InTask(f));
    SumEmpty(InTimer(f));
    SumEmpty(InProg(f));
    SumZero(s.workers, InWorker(f));
    assert InContext(f)(FRESH_FD) == 0;
    SumZero(s.io.contexts, InContext(f));
  }

  lemma InitInv(s: State)
    requires Init(s)
    ensures Inv(s)
  {
    hide Sum, OneHolder;
    SumZero(s.workers, InFlight);
    SumZero(s.workers, InIdle);
    SumZero(s.io.contexts, Bits);
    forall f: FiberId ensures OneHolder(s, f) { InitHolder(s, f); }
    forall k: nat ensures InStep(s.io, k, {}) {}
  }

  lemma {:induction false} EveryRunKeepsInv(s0: State, acts: seq<Action>)
    requires Init(s0) && Legal(s0, acts)
    ensures Inv(After(s0, acts))
    decreases |acts|
  {
    if acts == [] {
      InitInv(s0);
    } else {
      var n := |acts| - 1;
      EveryRunKeepsInv(s0, acts[..n]);
      Step(After(s0, acts[..n]), acts[n]);
    }
  }
}
