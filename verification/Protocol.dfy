/** The whole runtime as a step machine: N workers in `Scheduler::Run`, their idle fibers in
    `IOManager::Idle`, application fibers and callbacks, the hooked blocking calls, timers and epoll.
    One step is one critical section, one Resume, one Yield or one atomic counter access. A failed ASSERT
    halts the run: it has no successor state. */
module Protocol {
  import opened Sums
  import opened Tasks
  import opened IoManager

  // ------------------------------------------------------------------ state

  /** Where a fiber is in its code. */
  datatype Prog =
    | Start                                                   // created and scheduled, not yet run
    | Code                                                    // application code
    | SelfWait                                                // Schedule(self) done, then Yield
    | SleepWait                                               // sleep: wake-up timer armed, then Yield
    | IoArm(info: nat, timer: Option<nat>, fd: nat, e: Event)     // timeout timer made, AddEvent next
    | IoWait(info: nat, timer: Option<nat>, fd: nat, e: Event)    // event registered, then Yield
    | IoWoken(info: nat, timer: Option<nat>, fd: nat, e: Event, failed: bool)  // timer->Cancel() next
    | IoEnd(info: nat, fd: nat, e: Event, failed: bool)       // return, or retry
    | CloseNext(fd: nat)                                      // CancelAll done, close_f next
    | WakeNext(target: FiberId)                               // body of a sleep timer's callback
    | TimeoutNext(info: nat, fd: nat, e: Event)               // body of a timeout callback
    | CancelNext(fd: nat, e: Event)                           // ... after it set `cancelled`
    | Done

  /** Committed to suspending: must be woken exactly once more. */
  predicate Waits(p: Prog) { p.Start? || p.SelfWait? || p.SleepWait? || p.IoWait? }

  function Woken(p: Prog): Prog {
    match p
    case IoWait(info, timer, fd, e) => IoWoken(info, timer, fd, e, false)
    case _ => Code
  }

  function Body(cb: Callback): Prog {
    match cb
    case UserCb(_) => Code
    case WakeCb(f) => WakeNext(f)
    case TimeoutCb(info, fd, e) => TimeoutNext(info, fd, e)
  }

  datatype Timer = Timer(id: nat, cb: Callback, recurring: bool)

  /** timer_info, shared with the timeout callback through a weak pointer. */
  datatype Info = Info(alive: bool, cancelled: bool)

  datatype Report = Report(fd: nat, ready: Ready)

  datatype Pc =
    | Fetching
    | Got(task: Task)
    | Running(fiber: FiberId)
    | Ran
    | CheckTimers | CheckPending | CheckBase      // the three reads of Stopping(timeout)
    | Waiting                                     // epoll_wait
    | Expiring                                    // ListExpiredCb
    | Delivering                                  // schedule expired callbacks, handle reports, yield
    | IdleReturned
    | Exited

  datatype Worker = Worker(pc: Pc, idleTerm: bool, cbs: seq<Callback>, reports: seq<Report>)

  /** `timers` is in deadline order. `lost`, `clobbered`, `commits` and `dispatches` are history: fibers whose
      registration DelEvent removed, descriptors closed while registered, and per fiber how often it
      committed to suspend and how often it was dispatched afterwards. */
  datatype State = State(
    io: Io, stopping: bool, active: int, idle: int, workers: seq<Worker>,
    timers: seq<Timer>, nextTimer: nat, infos: seq<Info>,
    states: seq<FiberState>, progs: seq<Prog>,
    lost: set<FiberId>, clobbered: set<nat>, commits: seq<nat>, dispatches: seq<nat>)

  // ------------------------------------------------------------------ steps

  datatype IoOp =
    | OpAdd(fd: nat, e: Event, id: nat, fail: bool)
    | OpDel(fd: nat, e: Event, fail: bool)
    | OpCancel(fd: nat, e: Event, fail: bool)
    | OpCancelAll(fd: nat, fail: bool)

  datatype TimerOp =
    | OpArm(pos: nat, id: nat, recurring: bool)    // AddTimer with an application callback
    | OpDisarm(i: nat)                             // Cancel of an application timer
    | OpMove(i: nat, j: nat)                       // Refresh or reset of an application timer

  datatype RunStep = Take(i: nat) | TakeNone | Resume | Finish | IdleLeave

  datatype FiberStep =
    | CodeSchedule(task: Task)
    | CodeSpawn(thread: Option<nat>)
    | CodeIo(op: IoOp)
    | CodeTimer(top: TimerOp)
    | SelfCommit
    | SleepCommit(pos: nat)
    | IoBegin(fd: nat, e: Event, at: Option<nat>)
    | IoRegister(fail: bool)
    | IoDisarm(found: Option<nat>)
    | IoReturn
    | IoRetry(at: Option<nat>)
    | CloseCancel(fd: nat, fail: bool)
    | CloseFd
    | RunWake
    | RunTimeout
    | RunCancel(fail: bool)
    | YieldWait
    | End

  datatype IdleStep =
    | ReadTimers | ReadPending | ReadBase
    | Wait(reports: seq<Report>)
    | Expire(k: nat, after: seq<Timer>)
    | ScheduleCb
    | HandleReport(fail: bool)
    | IdleYield

  datatype Action =
    | Submit(task: Task)                  // Schedule of a callback from outside the workers
    | SubmitFiber(thread: Option<nat>)    // Schedule of a new fiber from outside the workers
    | OutsideTimer(top: TimerOp)          // timers of the application, from outside the workers
    | OutsideIo(op: IoOp)                 // event calls of the application, from outside the workers
    | Stop
    | OnRun(w: nat, run: RunStep)
    | OnFiber(w: nat, step: FiberStep)
    | OnIdle(w: nat, idle: IdleStep)

  /** Application code schedules callbacks of its own (or nothing), never somebody else's fiber. */
  predicate UserTask(t: Task) { t.fiber.None? && (t.cb.Some? ==> t.cb.value.UserCb?) }

  predicate Stopped(s: State) { s.stopping && s.io.tasks == [] && s.active == 0 }

  function Enqueue(s: State, t: Task): State { s.(io := s.io.(tasks := Scheduled(s.io.tasks, t))) }

  /** A new fiber with a queue entry. */
  function Spawn(s: State, thread: Option<nat>): State {
    Enqueue(s, Task(Some(|s.progs|), None, thread)).(
      states := s.states + [READY], progs := s.progs + [Start],
      commits := s.commits + [1], dispatches := s.dispatches + [0])
  }

  function SetPc(s: State, w: nat, pc: Pc): State
    requires w < |s.workers|
  {
    s.(workers := s.workers[w := s.workers[w].(pc := pc)])
  }

  predicate FiberOk(s: State, f: FiberId) {
    f < |s.progs| && f < |s.states| && f < |s.commits| && f < |s.dispatches|
  }

  function SetProg(s: State, f: FiberId, p: Prog): State
    requires f < |s.progs|
  {
    s.(progs := s.progs[f := p])
  }

  function Commit(s: State, f: FiberId, p: Prog): State
    requires FiberOk(s, f)
  {
    SetProg(s, f, p).(commits := s.commits[f := s.commits[f] + 1])
  }

  function Arm(s: State, pos: nat, cb: Callback, recurring: bool): State
    requires pos <= |s.timers|
  {
    s.(timers := s.timers[..pos] + [Timer(s.nextTimer, cb, recurring)] + s.timers[pos..],
       nextTimer := s.nextTimer + 1)
  }

  predicate IoOpEnabled(io: Io, op: IoOp) {
    op.OpAdd? ==> MayAdd(io, op.fd, op.e)
  }

  function IoOpApply(io: Io, op: IoOp, cur: FiberId): Io
    requires IoOpEnabled(io, op)
  {
    match op
    case OpAdd(fd, e, id, fail) => AddEvent(io, fd, e, Holder(0, Some(UserCb(id)), cur), fail).0
    case OpDel(fd, e, fail) => DelEvent(io, fd, e, fail).0
    case OpCancel(fd, e, fail) => CancelEvent(io, fd, e, fail).0
    case OpCancelAll(fd, fail) => CancelAll(io, fd, fail).0
  }

  /** The fibers that running `t` would wake. */
  function Wakes(t: Task): set<FiberId> {
    (if t.fiber.Some? then {t.fiber.value} else {}) +
    (if t.cb.Some? && t.cb.value.WakeCb? then {t.cb.value.fiber} else {})
  }

  /** The fiber, if any, whose registration a DelEvent removes. */
  function Dropped(io: Io, op: IoOp): set<FiberId> {
    if op.OpDel? && DelEvent(io, op.fd, op.e, op.fail).1
    then Wakes(io.contexts[op.fd].Ctx(op.e).Wake())
    else {}
  }

  /** An event call of the application, with a callback of its own. */
  function IoCall(s: State, op: IoOp, cur: FiberId): State
    requires IoOpEnabled(s.io, op)
  {
    s.(io := IoOpApply(s.io, op, cur), lost := s.lost + Dropped(s.io, op))
  }

  predicate TimerOpEnabled(ts: seq<Timer>, op: TimerOp) {
    match op
    case OpArm(pos, _, _) => pos <= |ts|
    case OpDisarm(i) => i < |ts| && ts[i].cb.UserCb?
    case OpMove(i, j) => i < |ts| && ts[i].cb.UserCb? && j < |ts|
  }

  function Moved(ts: seq<Timer>, i: nat, j: nat): seq<Timer>
    requires i < |ts| && j < |ts|
  {
    var rest := Removed(ts, i);
    rest[..j] + [ts[i]] + rest[j..]
  }

  function TimerOpApply(s: State, op: TimerOp): State
    requires TimerOpEnabled(s.timers, op)
  {
    match op
    case OpArm(pos, id, recurring) => Arm(s, pos, UserCb(id), recurring)
    case OpDisarm(i) => s.(timers := Removed(s.timers, i))
    case OpMove(i, j) => s.(timers := Moved(s.timers, i, j))
  }

  // --- Run

  ghost predicate RunEnabled(s: State, w: nat, a: RunStep)
    requires w < |s.workers|
  {
    var pc := s.workers[w].pc;
    match a
    case Take(i) => pc == Fetching && IsPick(s.io.tasks, w, s.states, i)
    case TakeNone => pc == Fetching && NoPick(s.io.tasks, w, s.states)
    case Resume => pc.Got? && (pc.task.fiber.Some? ==> FiberOk(s, pc.task.fiber.value))
    case Finish => pc == Ran
    case IdleLeave => pc == IdleReturned
  }

  /** The assertion at the head of Fiber::Resume. */
  predicate ResumeAsserts(s: State, w: nat)
    requires w < |s.workers| && s.workers[w].pc.Got?
  {
    var t := s.workers[w].pc.task;
    t.fiber.Some? ==> t.fiber.value < |s.states| && s.states[t.fiber.value] == READY
  }

  function ResumeTask(s: State, w: nat): State
    requires w < |s.workers| && s.workers[w].pc.Got?
    requires s.workers[w].pc.task.fiber.Some? ==> FiberOk(s, s.workers[w].pc.task.fiber.value)
  {
    var t := s.workers[w].pc.task;
    if t.fiber.Some? then
      var f := t.fiber.value;
      SetProg(SetPc(s, w, Running(f)), f, Woken(s.progs[f])).(
        states := s.states[f := RUNNING], dispatches := s.dispatches[f := s.dispatches[f] + 1])
    else
      SetPc(s, w, Running(|s.progs|)).(
        states := s.states + [RUNNING],
        progs := s.progs + [if t.cb.Some? then Body(t.cb.value) else Done],
        commits := s.commits + [0], dispatches := s.dispatches + [0])
  }

  ghost function RunApply(s: State, w: nat, a: RunStep): State
    requires w < |s.workers| && RunEnabled(s, w, a)
  {
    match a
    case Take(i) =>
      SetPc(s, w, Got(s.io.tasks[i])).(
        io := s.io.(tasks := Removed(s.io.tasks, i)), active := s.active + 1)
    case TakeNone =>
      if s.workers[w].idleTerm then SetPc(s, w, Exited)
      else SetPc(s, w, CheckTimers).(idle := s.idle + 1)
    case Resume => ResumeTask(s, w)
    case Finish => SetPc(s, w, Fetching).(active := s.active - 1)
    case IdleLeave => SetPc(s, w, Fetching).(idle := s.idle - 1)
  }

  // --- fibers

  predicate ArmAt(s: State, at: Option<nat>) { at.Some? ==> at.value <= |s.timers| }

  /** The timeout timer of do_io and connect, when the descriptor has a timeout. */
  function ArmTimeout(s: State, f: FiberId, at: Option<nat>, info: nat, fd: nat, e: Event): State
    requires f < |s.progs| && ArmAt(s, at)
  {
    if at.Some?
    then SetProg(Arm(s, at.value, TimeoutCb(info, fd, e), false), f, IoArm(info, Some(s.nextTimer), fd, e))
    else SetProg(s, f, IoArm(info, None, fd, e))
  }

  predicate FiberEnabled(s: State, f: FiberId, a: FiberStep)
    requires FiberOk(s, f)
  {
    var p := s.progs[f];
    match a
    case CodeSchedule(t) => p == Code && UserTask(t)
    case CodeSpawn(_) => p == Code
    case CodeIo(op) => p == Code && IoOpEnabled(s.io, op)
    case CodeTimer(op) => p == Code && TimerOpEnabled(s.timers, op)
    case SelfCommit => p == Code
    case SleepCommit(pos) => p == Code && pos <= |s.timers|
    case IoBegin(_, _, at) => p == Code && ArmAt(s, at)
    case IoRegister(_) => p.IoArm? && MayAdd(s.io, p.fd, p.e)
    case IoDisarm(found) =>
      && p.IoWoken?
      && (found.Some? ==> p.timer.Some? && found.value < |s.timers| && s.timers[found.value].id == p.timer.value)
      && (found.None? && p.timer.Some? ==>
            forall i :: 0 <= i < |s.timers| ==> s.timers[i].id != p.timer.value)
    case IoReturn => p.IoEnd? && p.info < |s.infos|
    case IoRetry(at) =>
      p.IoEnd? && !p.failed && p.info < |s.infos| && !s.infos[p.info].cancelled && ArmAt(s, at)
    case CloseCancel(_, _) => p == Code
    case CloseFd => p.CloseNext?
    case RunWake => p.WakeNext?
    case RunTimeout => p.TimeoutNext? && p.info < |s.infos|
    case RunCancel(_) => p.CancelNext?
    case YieldWait => Waits(p)
    case End => p == Code || p == Done
  }

  function Register(s: State, f: FiberId, fail: bool): State
    requires FiberOk(s, f) && FiberEnabled(s, f, IoRegister(fail))
  {
    var p := s.progs[f];
    var (io', ok) := AddEvent(s.io, p.fd, p.e, Holder(0, None, f), fail);
    if ok then Commit(s.(io := io'), f, IoWait(p.info, p.timer, p.fd, p.e))
    else SetProg(s.(io := io'), f, IoWoken(p.info, p.timer, p.fd, p.e, true))
  }

  function Disarm(s: State, f: FiberId, found: Option<nat>): State
    requires FiberOk(s, f) && FiberEnabled(s, f, IoDisarm(found))
  {
    var p := s.progs[f];
    SetProg(if found.Some? then s.(timers := Removed(s.timers, found.value)) else s,
            f, IoEnd(p.info, p.fd, p.e, p.failed))
  }

  function Close(s: State, f: FiberId): State
    requires FiberOk(s, f) && s.progs[f].CloseNext?
  {
    var fd := s.progs[f].fd;
    SetProg(s.(io := Closed(s.io, fd),
               clobbered := Left(s.io, fd, s.clobbered)),
            f, Code)
  }

  function Timeout(s: State, f: FiberId): State
    requires FiberOk(s, f) && FiberEnabled(s, f, RunTimeout)
  {
    var p := s.progs[f];
    if !s.infos[p.info].alive || s.infos[p.info].cancelled then SetProg(s, f, Done)
    else SetProg(s.(infos := s.infos[p.info := s.infos[p.info].(cancelled := true)]), f, CancelNext(p.fd, p.e))
  }

  /** The running fiber suspends, or ends. */
  function Leave(s: State, w: nat, f: FiberId, term: bool): State
    requires w < |s.workers| && FiberOk(s, f)
  {
    if term then SetProg(SetPc(s, w, Ran), f, Done).(states := s.states[f := TERM])
    else SetPc(s, w, Ran).(states := s.states[f := READY])
  }

  function FiberApply(s: State, w: nat, f: FiberId, a: FiberStep): State
    requires w < |s.workers| && FiberOk(s, f) && FiberEnabled(s, f, a)
  {
    var p := s.progs[f];
    match a
    case CodeSchedule(t) => Enqueue(s, t)
    case CodeSpawn(thread) => Spawn(s, thread)
    case CodeIo(op) => IoCall(s, op, f)
    case CodeTimer(op) => TimerOpApply(s, op)
    case SelfCommit => Commit(Enqueue(s, FiberTask(f)), f, SelfWait)
    case SleepCommit(pos) => Commit(Arm(s, pos, WakeCb(f), false), f, SleepWait)
    case IoBegin(fd, e, at) =>
      ArmTimeout(s.(infos := s.infos + [Info(true, false)]), f, at, |s.infos|, fd, e)
    case IoRegister(fail) => Register(s, f, fail)
    case IoDisarm(found) => Disarm(s, f, found)
    case IoReturn =>
      SetProg(s.(infos := s.infos[p.info := s.infos[p.info].(alive := false)]), f, Code)
    case IoRetry(at) => ArmTimeout(s, f, at, p.info, p.fd, p.e)
    case CloseCancel(fd, fail) => SetProg(s.(io := CancelAll(s.io, fd, fail).0), f, CloseNext(fd))
    case CloseFd => Close(s, f)
    case RunWake => SetProg(Enqueue(s, FiberTask(p.target)), f, Done)
    case RunTimeout => Timeout(s, f)
    case RunCancel(fail) => SetProg(s.(io := CancelEvent(s.io, p.fd, p.e, fail).0), f, Done)
    case YieldWait => Leave(s, w, f, false)
    case End => Leave(s, w, f, true)
  }

  // --- Idle

  function Recurring(ts: seq<Timer>): seq<Timer> {
    if ts == [] then []
    else Recurring(ts[..|ts| - 1]) + if ts[|ts| - 1].recurring then [ts[|ts| - 1]] else []
  }

  function CbsOf(ts: seq<Timer>): seq<Callback> {
    seq(|ts|, i requires 0 <= i < |ts| => ts[i].cb)
  }

  ghost predicate IdleEnabled(s: State, w: nat, a: IdleStep)
    requires w < |s.workers|
  {
    var wk := s.workers[w];
    match a
    case ReadTimers => wk.pc == CheckTimers
    case ReadPending => wk.pc == CheckPending
    case ReadBase => wk.pc == CheckBase
    case Wait(reports) =>
      && wk.pc == Waiting
      && forall r :: r in reports ==>
           && r.fd in s.io.kernel
           && (r.ready.readIn ==> s.io.kernel[r.fd].read) && (r.ready.writeOut ==> s.io.kernel[r.fd].write)
    case Expire(k, after) =>
      && wk.pc == Expiring && k <= |s.timers|
      && multiset(after) == multiset(s.timers[k..] + Recurring(s.timers[..k]))
    case ScheduleCb => wk.pc == Delivering && wk.cbs != []
    case HandleReport(fail) =>
      && wk.pc == Delivering && wk.cbs == [] && wk.reports != []
      && ReadyAsserts(s.io, wk.reports[0].fd, wk.reports[0].ready, fail)
    case IdleYield => wk.pc == Delivering && wk.cbs == [] && wk.reports == []
  }

  ghost function IdleApply(s: State, w: nat, a: IdleStep): State
    requires w < |s.workers| && IdleEnabled(s, w, a)
  {
    var wk := s.workers[w];
    match a
    case ReadTimers => SetPc(s, w, if s.timers == [] then CheckPending else Waiting)
    case ReadPending => SetPc(s, w, if s.io.pending == 0 then CheckBase else Waiting)
    case ReadBase =>
      if Stopped(s) then s.(workers := s.workers[w := wk.(pc := IdleReturned, idleTerm := true)])
      else SetPc(s, w, Waiting)
    case Wait(reports) => s.(workers := s.workers[w := wk.(pc := Expiring, reports := reports)])
    case Expire(k, after) =>
      s.(workers := s.workers[w := wk.(pc := Delivering, cbs := CbsOf(s.timers[..k]))], timers := after)
    case ScheduleCb =>
      Enqueue(s.(workers := s.workers[w := wk.(cbs := wk.cbs[1..])]), CbTask(wk.cbs[0]))
    case HandleReport(fail) =>
      s.(io := HandleReady(s.io, wk.reports[0].fd, wk.reports[0].ready, fail),
         workers := s.workers[w := wk.(reports := wk.reports[1..])])
    case IdleYield => SetPc(s, w, IdleReturned)
  }

  // --- all steps

  ghost predicate Enabled(s: State, a: Action) {
    match a
    case Submit(t) => UserTask(t)
    case SubmitFiber(_) => true
    case OutsideTimer(op) => TimerOpEnabled(s.timers, op)
    case OutsideIo(op) => IoOpEnabled(s.io, op)
    case Stop => true
    case OnRun(w, r) => w < |s.workers| && RunEnabled(s, w, r)
    case OnFiber(w, st) =>
      && w < |s.workers| && s.workers[w].pc.Running? && FiberOk(s, s.workers[w].pc.fiber)
      && FiberEnabled(s, s.workers[w].pc.fiber, st)
    case OnIdle(w, i) => w < |s.workers| && IdleEnabled(s, w, i)
  }

  ghost function Apply(s: State, a: Action): State
    requires Enabled(s, a)
  {
    match a
    case Submit(t) => Enqueue(s, t)
    case SubmitFiber(thread) => Spawn(s, thread)
    case OutsideTimer(op) => TimerOpApply(s, op)
    case OutsideIo(op) => IoCall(s, op, 0)
    case Stop => s.(stopping := true)
    case OnRun(w, r) => RunApply(s, w, r)
    case OnFiber(w, st) => FiberApply(s, w, s.workers[w].pc.fiber, st)
    case OnIdle(w, i) => IdleApply(s, w, i)
  }

  ghost predicate Legal(s0: State, acts: seq<Action>)
    decreases |acts|, 0
  {
    acts == [] ||
    (var n := |acts| - 1; Legal(s0, acts[..n]) && Enabled(After(s0, acts[..n]), acts[n]))
  }

  ghost function After(s0: State, acts: seq<Action>): State
    requires Legal(s0, acts)
    decreases |acts|, 1
  {
    if acts == [] then s0 else
      var n := |acts| - 1;
      Apply(After(s0, acts[..n]), acts[n])
  }

  /** N idle-less workers at the head of Run, nothing registered, nothing armed, nothing queued. */
  ghost predicate Init(s: State) {
    && |s.workers| > 0
    && (forall w :: 0 <= w < |s.workers| ==> s.workers[w] == Worker(Fetching, false, [], []))
    && s.io == Io(seq(32, _ => FRESH_FD), 0, map[], [], 0, 0, 0)
    && !s.stopping && s.active == s.idle == 0
    && s.timers == [] && s.nextTimer == 0 && s.infos == []
    && s.states == [] && s.progs == [] && s.commits == s.dispatches == []
    && s.lost == {} && s.clobbered == {}
  }
}
