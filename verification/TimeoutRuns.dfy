/** Timeouts of the hooked calls over whole runs: the timeout timer of a call carries exactly the descriptor and the
    event that the call waits for, and it is never lost. */
module TimeoutRuns {
  import opened Sums
  import opened Tasks
  import opened IoManager
  import opened Protocol
  import opened WakeTokens
  import opened WakeSteps
  import opened WakeRuns
  import opened RunInvariants

  /** The timer_info of the call that a fiber is in. */
  function CallInfo(p: Prog): Option<nat> {
    match p
    case IoArm(info, _, _, _) => Some(info)
    case IoWait(info, _, _, _) => Some(info)
    case IoWoken(info, _, _, _, _) => Some(info)
    case IoEnd(info, _, _, _) => Some(info)
    case _ => None
  }

  /** Every call has a live timer_info of its own. */
  ghost predicate OwnInfos(s: State) {
    && (forall f :: 0 <= f < |s.progs| && CallInfo(s.progs[f]).Some? ==>
          CallInfo(s.progs[f]).value < |s.infos| && s.infos[CallInfo(s.progs[f]).value].alive)
    && (forall f, g :: 0 <= f < |s.progs| && 0 <= g < |s.progs| && f != g && CallInfo(s.progs[f]).Some? ==>
          CallInfo(s.progs[f]) != CallInfo(s.progs[g]))
  }

  function Payload(p: Prog): Callback
    requires p.IoArm? || p.IoWait? || p.IoWoken?
  {
    TimeoutCb(p.info, p.fd, p.e)
  }

  /** An armed timer under the name of a call's timer is that call's timer. */
  ghost predicate OwnTimers(s: State) {
    forall p, t :: p in s.progs && Timed(p) && t in s.timers && t.id == p.timer.value ==>
      t == Timer(t.id, Payload(p), false)
  }

  function HasId(id: nat): Timer -> nat { (t: Timer) => if t.id == id then 1 else 0 }

  /** Timer names are unique. */
  ghost predicate OwnNames(s: State) {
    forall id: nat :: Sum(s.timers, HasId(id)) <= 1
  }

  /** A worker holds the callback: popped by its idle loop, or taken from the queue. */
  predicate Carries(w: Worker, cb: Callback) {
    cb in w.cbs || w.pc == Got(CbTask(cb))
  }

  /** The timeout of the call with this timer_info is still to come, on its way, or has done its work. */
  ghost predicate Pending(s: State, info: nat, id: nat, fd: nat, e: Event) {
    var cb := TimeoutCb(info, fd, e);
    || Timer(id, cb, false) in s.timers
    || (exists w :: 0 <= w < |s.workers| && Carries(s.workers[w], cb))
    || CbTask(cb) in s.io.tasks
    || TimeoutNext(info, fd, e) in s.progs
    || (info < |s.infos| && s.infos[info].cancelled)
  }

  ghost predicate AllPending(s: State) {
    forall p :: p in s.progs && (p.IoArm? || p.IoWait?) && p.timer.Some? ==>
      Pending(s, p.info, p.timer.value, p.fd, p.e)
  }

  ghost predicate TimeoutInv(s: State) {
    OwnInfos(s) && OwnTimers(s) && OwnNames(s) && AllPending(s)
  }

  // ------------------------------------------------------------------ a pending timeout stays pending

  /** Nothing that carries the callback goes away. */
  lemma PendingKept(s: State, s': State, info: nat, id: nat, fd: nat, e: Event)
    requires Pending(s, info, id, fd, e)
    requires forall t :: t in s.timers && t.cb == TimeoutCb(info, fd, e) ==> t in s'.timers
    requires |s'.workers| == |s.workers|
    requires forall w :: 0 <= w < |s.workers| && Carries(s.workers[w], TimeoutCb(info, fd, e)) ==>
               Carries(s'.workers[w], TimeoutCb(info, fd, e))
    requires forall t :: t in s.io.tasks ==> t in s'.io.tasks
    requires TimeoutNext(info, fd, e) in s.progs ==> TimeoutNext(info, fd, e) in s'.progs
    requires info < |s.infos| && s.infos[info].cancelled ==> info < |s'.infos| && s'.infos[info].cancelled
    ensures Pending(s', info, id, fd, e)
  {
    var cb := TimeoutCb(info, fd, e);
    if w :| 0 <= w < |s.workers| && Carries(s.workers[w], cb) {
      assert Carries(s'.workers[w], cb);
    }
  }

  lemma TriggerKeepsTasks(io: Io, fd: nat, m: Mask)
    requires m.Within(io.Events(fd))
    ensures forall t :: t in io.tasks ==> t in TriggerMask(io, fd, m).tasks
  {
  }

  lemma OpKeepsTasks(io: Io, op: IoOp, cur: FiberId)
    requires IoOpEnabled(io, op)
    ensures forall t :: t in io.tasks ==> t in IoOpApply(io, op, cur).tasks
  {
    if op.OpCancelAll? { TriggerKeepsTasks(io, op.fd, io.Events(op.fd)); }
  }

  lemma ReadyKeepsTasks(io: Io, fd: nat, r: Ready, fail: bool)
    requires ReadyAsserts(io, fd, r, fail)
    ensures forall t :: t in io.tasks ==> t in HandleReady(io, fd, r, fail).tasks
  {
    if Real(io, fd, r).Within(io.Events(fd)) { TriggerKeepsTasks(io, fd, Real(io, fd, r)); }
  }

  lemma RemovedKeeps<T>(xs: seq<T>, i: nat, x: T)
    requires i < |xs| && x in xs && x != xs[i]
    ensures x in Removed(xs, i)
  {
    var j :| 0 <= j < |xs| && xs[j] == x;
    if j < i {
      assert Removed(xs, i)[j] == x;
    } else {
      assert Removed(xs, i)[j - 1] == x;
    }
  }

  lemma ArmKeepsTimers(s: State, pos: nat, cb: Callback, recurring: bool)
    requires pos <= |s.timers|
    ensures forall t :: t in s.timers ==> t in Arm(s, pos, cb, recurring).timers
    ensures Timer(s.nextTimer, cb, recurring) in Arm(s, pos, cb, recurring).timers
    ensures forall t :: t in Arm(s, pos, cb, recurring).timers ==>
        t in s.timers || t == Timer(s.nextTimer, cb, recurring)
  {
    assert s.timers == s.timers[..pos] + s.timers[pos..];
  }

  /** A timer call of the application keeps every timer that is not the application's. */
  lemma TimerOpKeepsTimers(s: State, op: TimerOp)
    requires TimerOpEnabled(s.timers, op)
    ensures forall t :: t in s.timers && !t.cb.UserCb? ==> t in TimerOpApply(s, op).timers
    ensures forall t :: t in TimerOpApply(s, op).timers ==> t in s.timers || t.cb.UserCb?
  {
    match op
    case OpArm(pos, id, recurring) => ArmKeepsTimers(s, pos, UserCb(id), recurring);
    case OpDisarm(i) =>
      forall t | t in s.timers && !t.cb.UserCb?
        ensures t in TimerOpApply(s, op).timers { RemovedKeeps(s.timers, i, t); }
    case OpMove(i, j) =>
      var rest := Removed(s.timers, i);
      assert rest == rest[..j] + rest[j..];
      forall t | t in s.timers && !t.cb.UserCb?
        ensures t in TimerOpApply(s, op).timers { RemovedKeeps(s.timers, i, t); }
  }

  /** Outside calls. */
  lemma PendingOutside(s: State, a: Action, info: nat, id: nat, fd: nat, e: Event)
    requires Pending(s, info, id, fd, e) && Enabled(s, a) && !a.OnRun? && !a.OnFiber? && !a.OnIdle?
    ensures Pending(Apply(s, a), info, id, fd, e)
  {
    hide Pending, Carries, IoOpApply, Dropped, TimerOpApply, TimerOpEnabled;
    match a {
      case OutsideTimer(op) =>
        TimerOpKeepsTimers(s, op);
        TimerOpFrame(s, op);
      case OutsideIo(op) => OpKeepsTasks(s.io, op, 0);
      case _ =>
    }
    PendingKept(s, Apply(s, a), info, id, fd, e);
  }

  /** Run: a taken callback is with the worker, and a resumed one in its new fiber. */
  lemma PendingRun(s: State, w: nat, a: RunStep, info: nat, id: nat, fd: nat, e: Event)
    requires Pending(s, info, id, fd, e) && Tokens(s) && w < |s.workers| && RunEnabled(s, w, a)
    ensures Pending(RunApply(s, w, a), info, id, fd, e)
  {
    var cb := TimeoutCb(info, fd, e);
    var s' := RunApply(s, w, a);
    if a.Take? {
      PendingTake(s, w, a.i, info, id, fd, e);
    } else if a.Resume? && s.workers[w].pc == Got(CbTask(cb)) {
      assert s'.progs[|s.progs|] == TimeoutNext(info, fd, e);
    } else if a.Resume? && s.workers[w].pc.task.fiber.Some? {
      hide Pending;
      var f := s.workers[w].pc.task.fiber.value;
      GotIsAwaited(s, w);
      if TimeoutNext(info, fd, e) in s.progs {
        var g :| 0 <= g < |s.progs| && s.progs[g] == TimeoutNext(info, fd, e);
        assert s'.progs[g] == s.progs[g];
      }
      PendingKept(s, s', info, id, fd, e);
    } else {
      hide Pending;
      PendingKept(s, s', info, id, fd, e);
    }
  }

  lemma PendingTake(s: State, w: nat, i: nat, info: nat, id: nat, fd: nat, e: Event)
    requires Pending(s, info, id, fd, e) && w < |s.workers| && RunEnabled(s, w, Take(i))
    ensures Pending(RunApply(s, w, Take(i)), info, id, fd, e)
  {
    var cb := TimeoutCb(info, fd, e);
    var s' := RunApply(s, w, Take(i));
    if s.io.tasks[i] == CbTask(cb) {
      assert Carries(s'.workers[w], cb);
    } else if CbTask(cb) in s.io.tasks {
      RemovedKeeps(s.io.tasks, i, CbTask(cb));
    } else if v :| 0 <= v < |s.workers| && Carries(s.workers[v], cb) {
      assert Carries(s'.workers[v], cb);
    }
  }

  /** The idle loop: a popped timeout is with the worker until it is queued. */
  lemma PendingIdle(s: State, w: nat, a: IdleStep, info: nat, id: nat, fd: nat, e: Event)
    requires Pending(s, info, id, fd, e) && w < |s.workers| && IdleEnabled(s, w, a)
    requires a.Expire? ==> s.workers[w].cbs == []
    ensures Pending(IdleApply(s, w, a), info, id, fd, e)
  {
    var cb := TimeoutCb(info, fd, e);
    match a {
      case Expire(k, after) => PendingExpire(s, w, k, after, info, id, fd, e);
      case ScheduleCb =>
        var s' := IdleApply(s, w, a);
        if s.workers[w].cbs[0] == cb {
          assert CbTask(cb) in s'.io.tasks;
        } else {
          assert Carries(s.workers[w], cb) ==> Carries(s'.workers[w], cb);
          PendingKept(s, s', info, id, fd, e);
        }
      case HandleReport(fail) =>
        hide Pending, HandleReady, ReadyAsserts;
        var r := s.workers[w].reports[0];
        ReadyKeepsTasks(s.io, r.fd, r.ready, fail);
        PendingKept(s, IdleApply(s, w, a), info, id, fd, e);
      case _ =>
        hide Pending;
        PendingKept(s, IdleApply(s, w, a), info, id, fd, e);
    }
  }

  lemma PendingExpire(s: State, w: nat, k: nat, after: seq<Timer>, info: nat, id: nat, fd: nat, e: Event)
    requires Pending(s, info, id, fd, e) && w < |s.workers| && IdleEnabled(s, w, Expire(k, after))
    requires s.workers[w].cbs == []
    ensures Pending(IdleApply(s, w, Expire(k, after)), info, id, fd, e)
  {
    var cb := TimeoutCb(info, fd, e);
    var s' := IdleApply(s, w, Expire(k, after));
    var t := Timer(id, cb, false);
    if t in s.timers {
      var i :| 0 <= i < |s.timers| && s.timers[i] == t;
      if i < k {
        assert s'.workers[w].cbs[i] == cb;
        assert Carries(s'.workers[w], cb);
      } else {
        assert s.timers[k..][i - k] == t;
        assert t in multiset(s.timers[k..] + Recurring(s.timers[..k]));
        assert t in multiset(after);
      }
    } else if v :| 0 <= v < |s.workers| && Carries(s.workers[v], cb) {
      assert v != w && Carries(s'.workers[v], cb);
    }
  }

  // ------------------------------------------------------------------ steps of fibers

  /** Only the timeout itself, and the call that owns the timer, end it. */
  lemma PendingFiber(s: State, w: nat, g: FiberId, a: FiberStep, info: nat, id: nat, fd: nat, e: Event)
    requires Pending(s, info, id, fd, e) && OwnTimers(s) && info < |s.infos| && s.infos[info].alive
    requires w < |s.workers| && FiberOk(s, g) && FiberEnabled(s, g, a) && s.workers[w].pc == Running(g)
    requires a.IoDisarm? ==> CallInfo(s.progs[g]) != Some(info)
    ensures Pending(FiberApply(s, w, g, a), info, id, fd, e)
  {
    var s' := FiberApply(s, w, g, a);
    if s.progs[g] == TimeoutNext(info, fd, e) && a.RunTimeout? {
      assert s'.infos[info].cancelled;
    } else {
      hide Pending;
      FiberKeepsTimers(s, w, g, a, info, fd, e);
      FiberKeepsRest(s, w, g, a, info, fd, e);
      PendingKept(s, s', info, id, fd, e);
    }
  }

  lemma FiberKeepsTimers(s: State, w: nat, g: FiberId, a: FiberStep, info: nat, fd: nat, e: Event)
    requires OwnTimers(s) && w < |s.workers| && FiberOk(s, g) && FiberEnabled(s, g, a)
    requires a.IoDisarm? ==> CallInfo(s.progs[g]) != Some(info)
    ensures forall t :: t in s.timers && t.cb == TimeoutCb(info, fd, e) ==> t in FiberApply(s, w, g, a).timers
  {
    hide AddEvent, CancelEvent, CancelAll, Closed, IoOpApply, Dropped, Scheduled, MayAdd, IoOpEnabled;
    var p := s.progs[g];
    match a {
      case CodeTimer(op) => TimerOpKeepsTimers(s, op);
      case SleepCommit(pos) => ArmKeepsTimers(s, pos, WakeCb(g), false);
      case IoBegin(fd', e', at) =>
        if at.Some? { ArmKeepsTimers(s, at.value, TimeoutCb(|s.infos|, fd', e'), false); }
      case IoRetry(at) =>
        if at.Some? { ArmKeepsTimers(s, at.value, TimeoutCb(p.info, p.fd, p.e), false); }
      case IoDisarm(found) =>
        if found.Some? {
          assert p in s.progs && s.timers[found.value] in s.timers;
          forall t | t in s.timers && t.cb == TimeoutCb(info, fd, e)
            ensures t in FiberApply(s, w, g, a).timers
          {
            RemovedKeeps(s.timers, found.value, t);
          }
        }
      case _ =>
    }
  }

  lemma FiberKeepsRest(s: State, w: nat, g: FiberId, a: FiberStep, info: nat, fd: nat, e: Event)
    requires w < |s.workers| && FiberOk(s, g) && FiberEnabled(s, g, a) && s.workers[w].pc == Running(g)
    requires info < |s.infos| && !(s.progs[g] == TimeoutNext(info, fd, e) && a.RunTimeout?)
    ensures
      var s' := FiberApply(s, w, g, a);
      var cb := TimeoutCb(info, fd, e);
      && |s'.workers| == |s.workers|
      && (forall v :: 0 <= v < |s.workers| && Carries(s.workers[v], cb) ==> Carries(s'.workers[v], cb))
      && (forall t :: t in s.io.tasks ==> t in s'.io.tasks)
      && (TimeoutNext(info, fd, e) in s.progs ==> TimeoutNext(info, fd, e) in s'.progs)
      && info < |s'.infos| && (s.infos[info].cancelled ==> s'.infos[info].cancelled)
  {
    FiberKeepsTasks(s, w, g, a);
    FiberKeepsProg(s, w, g, a, TimeoutNext(info, fd, e));
    FiberKeepsInfos(s, w, g, a, info);
  }

  lemma FiberKeepsTasks(s: State, w: nat, g: FiberId, a: FiberStep)
    requires w < |s.workers| && FiberOk(s, g) && FiberEnabled(s, g, a)
    ensures forall t :: t in s.io.tasks ==> t in FiberApply(s, w, g, a).io.tasks
  {
    hide IoOpApply, IoOpEnabled;
    match a
    case CodeIo(op) => OpKeepsTasks(s.io, op, g);
    case CloseCancel(fd, fail) => TriggerKeepsTasks(s.io, fd, s.io.Events(fd));
    case _ =>
  }

  lemma FiberKeepsProg(s: State, w: nat, g: FiberId, a: FiberStep, p: Prog)
    requires w < |s.workers| && FiberOk(s, g) && FiberEnabled(s, g, a) && p.TimeoutNext?
    requires !(s.progs[g] == p && a.RunTimeout?)
    ensures p in s.progs ==> p in FiberApply(s, w, g, a).progs
  {
    hide AddEvent, CancelEvent, CancelAll, Closed, IoOpApply, Dropped, Scheduled, MayAdd, IoOpEnabled, Removed;
    var s' := FiberApply(s, w, g, a);
    if p in s.progs {
      var f :| 0 <= f < |s.progs| && s.progs[f] == p;
      assert s'.progs[f] == p;
    }
  }

  lemma FiberKeepsInfos(s: State, w: nat, g: FiberId, a: FiberStep, info: nat)
    requires w < |s.workers| && FiberOk(s, g) && FiberEnabled(s, g, a) && s.workers[w].pc == Running(g)
        && info < |s.infos|
    ensures
      var s' := FiberApply(s, w, g, a);
      && info < |s'.infos| && (s.infos[info].cancelled ==> s'.infos[info].cancelled)
      && (s.infos[info].alive && !(a.IoReturn? && s.progs[g].info == info) ==> s'.infos[info].alive)
      && |s'.workers| == |s.workers|
      && (forall v, cb :: 0 <= v < |s.workers| && Carries(s.workers[v], cb) ==> Carries(s'.workers[v], cb))
  {
    hide AddEvent, CancelEvent, CancelAll, Closed, IoOpApply, Dropped, Scheduled, MayAdd, IoOpEnabled, Removed;
  }

  // ------------------------------------------------------------------ timer_infos

  /** Fiber `g` alone changed its program, to one of the same call, of a new call, or of none. */
  lemma InfosKept(s: State, s': State, g: FiberId)
    requires OwnInfos(s) && g < |s.progs| <= |s'.progs| && |s.infos| <= |s'.infos|
    requires forall f :: 0 <= f < |s.progs| && f != g ==> s'.progs[f] == s.progs[f]
    requires forall f :: |s.progs| <= f < |s'.progs| ==> CallInfo(s'.progs[f]).None?
    requires
      || CallInfo(s'.progs[g]) == CallInfo(s.progs[g])
      || CallInfo(s'.progs[g]).None?
      || (CallInfo(s'.progs[g]) == Some(|s.infos|) && |s.infos| < |s'.infos| && s'.infos[|s.infos|].alive)
    requires forall i :: 0 <= i < |s.infos| && s.infos[i].alive && CallInfo(s.progs[g]) != Some(i) ==> s'.infos[i].alive
    requires forall i :: 0 <= i < |s.infos| && s.infos[i].alive && CallInfo(s'.progs[g]) == Some(i) ==>
        s'.infos[i].alive
    ensures OwnInfos(s')
  {
  }

  lemma FiberInfos(s: State, w: nat, g: FiberId, a: FiberStep)
    requires Shape(s) && OwnInfos(s) && w < |s.workers| && FiberOk(s, g) && FiberEnabled(s, g, a)
    ensures OwnInfos(FiberApply(s, w, g, a))
  {
    var s' := FiberApply(s, w, g, a);
    FiberProgs(s, w, g, a);
    CallOfStep(s, w, g, a);
    InfosKept(s, s', g);
  }

  lemma FiberProgs(s: State, w: nat, g: FiberId, a: FiberStep)
    requires Shape(s) && w < |s.workers| && FiberOk(s, g) && FiberEnabled(s, g, a)
    ensures
      var s' := FiberApply(s, w, g, a);
      && |s.progs| <= |s'.progs|
      && (forall f :: 0 <= f < |s.progs| && f != g ==> s'.progs[f] == s.progs[f])
      && (forall f :: |s.progs| <= f < |s'.progs| ==> s'.progs[f] == Start)
  {
    hide FiberApply, FiberEnabled;
    Frame(s, w, g, a);
  }

  /** What a step does to the call that its fiber is in. */
  lemma CallOfStep(s: State, w: nat, g: FiberId, a: FiberStep)
    requires w < |s.workers| && FiberOk(s, g) && FiberEnabled(s, g, a)
    ensures
      var s' := FiberApply(s, w, g, a);
      && g < |s'.progs| && |s.infos| <= |s'.infos|
      && (|| CallInfo(s'.progs[g]) == CallInfo(s.progs[g])
          || CallInfo(s'.progs[g]).None?
          || (CallInfo(s'.progs[g]) == Some(|s.infos|) && |s.infos| < |s'.infos| && s'.infos[|s.infos|].alive))
      && (forall i :: 0 <= i < |s.infos| && s.infos[i].alive && CallInfo(s.progs[g]) != Some(i) ==> s'.infos[i].alive)
      && (forall i :: 0 <= i < |s.infos| && s.infos[i].alive && CallInfo(s'.progs[g]) == Some(i) ==> s'.infos[i].alive)
  {
    hide AddEvent, CancelEvent, CancelAll, Closed, IoOpApply, Dropped, Scheduled, MayAdd, IoOpEnabled, Removed;
    hide TimerOpApply, TimerOpEnabled;
    if a.CodeTimer? { TimerOpFrame(s, a.top); }
  }

  lemma ResumeInfos(s: State, w: nat)
    requires OwnInfos(s) && w < |s.workers| && RunEnabled(s, w, Resume)
    ensures OwnInfos(ResumeTask(s, w))
  {
  }

  // ------------------------------------------------------------------ names

  lemma ArmNames(s: State, pos: nat, cb: Callback, recurring: bool)
    requires OwnNames(s) && TimerKinds(s) && pos <= |s.timers|
    ensures OwnNames(Arm(s, pos, cb, recurring))
  {
    hide Sum;
    forall id: nat
      ensures Sum(Arm(s, pos, cb, recurring).timers, HasId(id)) <= 1
    {
      SumInsert(s.timers, pos, Timer(s.nextTimer, cb, recurring), HasId(id));
      if id == s.nextTimer { SumZero(s.timers, HasId(id)); }
    }
  }

  lemma NamesOf(s: State, s': State)
    requires OwnNames(s) && forall id: nat :: Sum(s'.timers, HasId(id)) <= Sum(s.timers, HasId(id))
    ensures OwnNames(s')
  {
    hide Sum;
    forall id: nat
      ensures Sum(s'.timers, HasId(id)) <= 1
    {
      assert Sum(s.timers, HasId(id)) <= 1;
    }
  }

  lemma TimerOpNames(s: State, op: TimerOp)
    requires OwnNames(s) && TimerKinds(s) && TimerOpEnabled(s.timers, op)
    ensures OwnNames(TimerOpApply(s, op))
  {
    hide Sum, OwnNames;
    match op {
      case OpArm(pos, id, recurring) => ArmNames(s, pos, UserCb(id), recurring);
      case OpDisarm(i) =>
        forall id: nat ensures Sum(Removed(s.timers, i), HasId(id)) <= Sum(s.timers, HasId(id)) {
          SumRemove(s.timers, i, HasId(id));
        }
        NamesOf(s, TimerOpApply(s, op));
      case OpMove(i, j) =>
        forall id: nat ensures Sum(Moved(s.timers, i, j), HasId(id)) <= Sum(s.timers, HasId(id)) {
          SumRemove(s.timers, i, HasId(id));
          SumInsert(Removed(s.timers, i), j, s.timers[i], HasId(id));
        }
        NamesOf(s, TimerOpApply(s, op));
    }
  }

  lemma {:induction false} RecurringNames(ts: seq<Timer>, id: nat)
    ensures Sum(Recurring(ts), HasId(id)) <= Sum(ts, HasId(id))
  {
    if ts != [] {
      var n := |ts| - 1;
      RecurringNames(ts[..n], id);
      SumAppend(Recurring(ts[..n]), ts[n], HasId(id));
      assert Recurring(ts[..n]) + [] == Recurring(ts[..n]);
    }
  }

  lemma ExpireNames(s: State, w: nat, k: nat, after: seq<Timer>)
    requires OwnNames(s) && w < |s.workers| && IdleEnabled(s, w, Expire(k, after))
    ensures OwnNames(IdleApply(s, w, Expire(k, after)))
  {
    hide Sum, OwnNames;
    forall id: nat
      ensures Sum(after, HasId(id)) <= Sum(s.timers, HasId(id))
    {
      assert s.timers == s.timers[..k] + s.timers[k..];
      SumConcat(s.timers[..k], s.timers[k..], HasId(id));
      SumConcat(s.timers[k..], Recurring(s.timers[..k]), HasId(id));
      SumPermutation(after, s.timers[k..] + Recurring(s.timers[..k]), HasId(id));
      RecurringNames(s.timers[..k], id);
    }
    NamesOf(s, IdleApply(s, w, Expire(k, after)));
  }

  lemma FiberNames(s: State, w: nat, g: FiberId, a: FiberStep)
    requires OwnNames(s) && TimerKinds(s) && w < |s.workers| && FiberOk(s, g) && FiberEnabled(s, g, a)
    ensures OwnNames(FiberApply(s, w, g, a))
  {
    hide Sum, OwnNames, TimerKinds, Arm, TimerOpApply, TimerOpEnabled;
    hide AddEvent, CancelEvent, CancelAll, Closed, IoOpApply, Dropped, Scheduled, MayAdd, IoOpEnabled;
    var s' := FiberApply(s, w, g, a);
    var p := s.progs[g];
    match a {
      case CodeTimer(op) => TimerOpNames(s, op);
      case SleepCommit(pos) =>
        ArmNames(s, pos, WakeCb(g), false);
        SameTimers(Arm(s, pos, WakeCb(g), false), s');
      case IoBegin(fd, e, at) =>
        var s1 := s.(infos := s.infos + [Info(true, false)]);
        SameTimers(s, s1);
        if at.Some? {
          KindsWithInfos(s, s1);
          ArmNames(s1, at.value, TimeoutCb(|s.infos|, fd, e), false);
          SameTimers(Arm(s1, at.value, TimeoutCb(|s.infos|, fd, e), false), s');
        } else {
          SameTimers(s1, s');
        }
      case IoRetry(at) =>
        if at.Some? {
          ArmNames(s, at.value, TimeoutCb(p.info, p.fd, p.e), false);
          SameTimers(Arm(s, at.value, TimeoutCb(p.info, p.fd, p.e), false), s');
        } else {
          SameTimers(s, s');
        }
      case IoDisarm(found) =>
        if found.Some? {
          forall id: nat ensures Sum(s'.timers, HasId(id)) <= Sum(s.timers, HasId(id)) {
            SumRemove(s.timers, found.value, HasId(id));
          }
          NamesOf(s, s');
        } else {
          SameTimers(s, s');
        }
      case _ => SameTimers(s, s');
    }
  }

  lemma SameTimers(s: State, s': State)
    requires OwnNames(s) && s'.timers == s.timers
    ensures OwnNames(s')
  {
    hide Sum;
  }

  lemma KindsWithInfos(s: State, s1: State)
    requires TimerKinds(s) && s1 == s.(infos := s1.infos)
    ensures TimerKinds(s1)
  {
  }

  // ------------------------------------------------------------------ timers of calls

  /** Timers are old, or new under a new name; a fiber's timer is the one it had, or the new one. */
  lemma TimersKept(s: State, s': State)
    requires OwnTimers(s) && TimerKinds(s) && s.nextTimer <= s'.nextTimer
    requires forall t :: t in s'.timers ==> t in s.timers || (t.id == s.nextTimer < s'.nextTimer)
    requires forall p :: p in s'.progs && Timed(p) ==>
      || (exists q :: q in s.progs && Timed(q) && q.timer == p.timer && Payload(q) == Payload(p))
      || (p.timer.value == s.nextTimer < s'.nextTimer
          && forall t :: t in s'.timers && t.id == s.nextTimer ==> t == Timer(t.id, Payload(p), false))
    ensures OwnTimers(s')
  {
    forall p, t | p in s'.progs && Timed(p) && t in s'.timers && t.id == p.timer.value
      ensures t == Timer(t.id, Payload(p), false)
    {
      if q :| q in s.progs && Timed(q) && q.timer == p.timer && Payload(q) == Payload(p) {
        assert t in s.timers;
      }
    }
  }

  lemma FiberTimers(s: State, w: nat, g: FiberId, a: FiberStep)
    requires Shape(s) && OwnTimers(s) && TimerKinds(s) && w < |s.workers| && FiberOk(s, g) && FiberEnabled(s, g, a)
    ensures OwnTimers(FiberApply(s, w, g, a))
  {
    var s' := FiberApply(s, w, g, a);
    FiberProgs(s, w, g, a);
    NewTimers(s, w, g, a);
    forall p | p in s'.progs && Timed(p)
      ensures
        || (exists q :: q in s.progs && Timed(q) && q.timer == p.timer && Payload(q) == Payload(p))
        || (p.timer.value == s.nextTimer < s'.nextTimer
            && forall t :: t in s'.timers && t.id == s.nextTimer ==> t == Timer(t.id, Payload(p), false))
    {
      var f :| 0 <= f < |s'.progs| && s'.progs[f] == p;
      if f == g {
        OwnStep(s, w, g, a);
        assert s.progs[g] in s.progs;
      } else {
        assert p in s.progs;
      }
    }
    TimersKept(s, s');
  }

  lemma NewTimers(s: State, w: nat, g: FiberId, a: FiberStep)
    requires w < |s.workers| && FiberOk(s, g) && FiberEnabled(s, g, a)
    ensures
      var s' := FiberApply(s, w, g, a);
      && s.nextTimer <= s'.nextTimer
      && forall t :: t in s'.timers ==> t in s.timers || (t.id == s.nextTimer < s'.nextTimer)
  {
    hide AddEvent, CancelEvent, CancelAll, Closed, IoOpApply, Dropped, Scheduled, MayAdd, IoOpEnabled;
    hide TimerOpApply, TimerOpEnabled;
    if a.CodeTimer? { OutsideNew(s, a.top); }
  }

  /** The acting fiber's own timer: the same one for the same call, or the one it just made. */
  lemma OwnStep(s: State, w: nat, g: FiberId, a: FiberStep)
    requires TimerKinds(s) && w < |s.workers| && FiberOk(s, g) && FiberEnabled(s, g, a)
    ensures
      var s' := FiberApply(s, w, g, a);
      g < |s'.progs| && (Timed(s'.progs[g]) ==>
        || (Timed(s.progs[g]) && s.progs[g].timer == s'.progs[g].timer && Payload(s.progs[g]) == Payload(s'.progs[g]))
        || (s'.progs[g].timer.value == s.nextTimer < s'.nextTimer
            && (forall t :: t in s'.timers && t.id == s.nextTimer ==> t == Timer(t.id, Payload(s'.progs[g]), false))
            && Timer(s.nextTimer, Payload(s'.progs[g]), false) in s'.timers))
  {
    hide AddEvent, CancelEvent, CancelAll, Closed, IoOpApply, Dropped, Scheduled, MayAdd, IoOpEnabled;
    hide TimerOpApply, TimerOpEnabled;
    var p := s.progs[g];
    match a {
      case IoBegin(fd, e, at) =>
        if at.Some? { ArmKeepsTimers(s, at.value, TimeoutCb(|s.infos|, fd, e), false); }
      case IoRetry(at) =>
        if at.Some? { ArmKeepsTimers(s, at.value, TimeoutCb(p.info, p.fd, p.e), false); }
      case CodeTimer(op) => TimerOpFrame(s, op);
      case _ =>
    }
  }

  lemma ResumeTimersOwn(s: State, w: nat)
    requires OwnTimers(s) && TimerKinds(s) && w < |s.workers| && RunEnabled(s, w, Resume)
    ensures OwnTimers(ResumeTask(s, w))
  {
    var s' := ResumeTask(s, w);
    forall p | p in s'.progs && Timed(p)
      ensures exists q :: q in s.progs && Timed(q) && q.timer == p.timer && Payload(q) == Payload(p)
    {
      var f :| 0 <= f < |s'.progs| && s'.progs[f] == p;
      assert s.progs[f] in s.progs;
    }
    TimersKept(s, s');
  }

  lemma ExpireTimersOwn(s: State, w: nat, k: nat, after: seq<Timer>)
    requires OwnTimers(s) && TimerKinds(s) && w < |s.workers| && IdleEnabled(s, w, Expire(k, after))
    ensures OwnTimers(IdleApply(s, w, Expire(k, after)))
  {
    var s' := IdleApply(s, w, Expire(k, after));
    forall t | t in after
      ensures t in s.timers
    {
      assert t in multiset(after);
      if t in Recurring(s.timers[..k]) { RecurringIn(s.timers[..k], t); }
    }
    TimersKept(s, s');
  }

  // ------------------------------------------------------------------ all pending

  /** A call that waits and did so before has a pending timeout still; a new one has its timer. */
  lemma FiberPending(s: State, w: nat, g: FiberId, a: FiberStep)
    requires Shape(s) && TimeoutInv(s) && TimerKinds(s)
    requires w < |s.workers| && FiberOk(s, g) && FiberEnabled(s, g, a) && s.workers[w].pc == Running(g)
    ensures AllPending(FiberApply(s, w, g, a))
  {
    hide OwnTimers, OwnNames, Pending, TimerKinds, FiberApply, FiberEnabled;
    var s' := FiberApply(s, w, g, a);
    FiberProgs(s, w, g, a);
    forall p | p in s'.progs && (p.IoArm? || p.IoWait?) && p.timer.Some?
      ensures Pending(s', p.info, p.timer.value, p.fd, p.e)
    {
      var f :| 0 <= f < |s'.progs| && s'.progs[f] == p;
      if f == g {
        WaitStep(s, w, g, a);
        if !Fresh(s, s', p) {
          assert s.progs[g] in s.progs;
          PendingFiber(s, w, g, a, p.info, p.timer.value, p.fd, p.e);
        } else {
          FreshPends(s, s', p);
        }
      } else {
        assert s.progs[f] == p && p in s.progs;
        assert a.IoDisarm? ==> CallInfo(s.progs[g]) != Some(p.info) by { DisarmCalls(s, g, a); }
        PendingFiber(s, w, g, a, p.info, p.timer.value, p.fd, p.e);
      }
    }
  }

  lemma DisarmCalls(s: State, g: FiberId, a: FiberStep)
    requires FiberOk(s, g) && FiberEnabled(s, g, a)
    ensures a.IoDisarm? ==> CallInfo(s.progs[g]).Some?
  {
  }

  /** `p` has just made its timer. */
  ghost predicate Fresh(s: State, s': State, p: Prog) {
    (p.IoArm? || p.IoWait?) && p.timer == Some(s.nextTimer) && Timer(s.nextTimer, Payload(p), false) in s'.timers
  }

  lemma FreshPends(s: State, s': State, p: Prog)
    requires Fresh(s, s', p)
    ensures Pending(s', p.info, p.timer.value, p.fd, p.e)
  {
  }

  /** The acting fiber waits in the call it was about to wait in, or has just made its timer. */
  lemma WaitStep(s: State, w: nat, g: FiberId, a: FiberStep)
    requires TimerKinds(s) && OwnInfos(s) && w < |s.workers| && FiberOk(s, g) && FiberEnabled(s, g, a)
    ensures
      var s' := FiberApply(s, w, g, a);
      g < |s'.progs| && ((s'.progs[g].IoArm? || s'.progs[g].IoWait?) && s'.progs[g].timer.Some? ==>
        || Fresh(s, s', s'.progs[g])
        || ((s.progs[g].IoArm? || s.progs[g].IoWait?) && s.progs[g].timer == s'.progs[g].timer
            && Payload(s.progs[g]) == Payload(s'.progs[g]) && !a.IoDisarm?
            && s.progs[g].info < |s.infos| && s.infos[s.progs[g].info].alive))
  {
    OwnStep(s, w, g, a);
    assert CallInfo(s.progs[g]).Some? ==> CallInfo(s.progs[g]).value < |s.infos|;
    hide AddEvent, CancelEvent, CancelAll, Closed, IoOpApply, Dropped, Scheduled, MayAdd, IoOpEnabled;
    hide TimerOpApply, TimerOpEnabled, TimerKinds;
    if a.CodeTimer? { TimerOpFrame(s, a.top); }
  }

  lemma RunPending(s: State, w: nat, a: RunStep)
    requires AllPending(s) && Tokens(s) && w < |s.workers| && RunEnabled(s, w, a)
    ensures AllPending(RunApply(s, w, a))
  {
    var s' := RunApply(s, w, a);
    forall p | p in s'.progs && (p.IoArm? || p.IoWait?) && p.timer.Some?
      ensures Pending(s', p.info, p.timer.value, p.fd, p.e)
    {
      RunWaits(s, w, a, p);
      PendingRun(s, w, a, p.info, p.timer.value, p.fd, p.e);
    }
  }

  lemma RunWaits(s: State, w: nat, a: RunStep, p: Prog)
    requires w < |s.workers| && RunEnabled(s, w, a) && p in RunApply(s, w, a).progs && (p.IoArm? || p.IoWait?)
    ensures p in s.progs
  {
    var s' := RunApply(s, w, a);
    var f :| 0 <= f < |s'.progs| && s'.progs[f] == p;
    assert f < |s.progs| && s.progs[f] == p;
  }

  lemma IdlePending(s: State, w: nat, a: IdleStep)
    requires AllPending(s) && IdleShape(s) && w < |s.workers| && IdleEnabled(s, w, a)
    ensures AllPending(IdleApply(s, w, a))
  {
    hide Pending;
    var s' := IdleApply(s, w, a);
    forall p | p in s'.progs && (p.IoArm? || p.IoWait?) && p.timer.Some?
      ensures Pending(s', p.info, p.timer.value, p.fd, p.e)
    {
      PendingIdle(s, w, a, p.info, p.timer.value, p.fd, p.e);
    }
  }

  lemma OutsidePending(s: State, a: Action)
    requires AllPending(s) && Enabled(s, a) && !a.OnRun? && !a.OnFiber? && !a.OnIdle?
    ensures AllPending(Apply(s, a))
  {
    hide Pending, IoOpApply, Dropped, TimerOpApply, TimerOpEnabled;
    var s' := Apply(s, a);
    if a.OutsideTimer? { TimerOpFrame(s, a.top); }
    forall p | p in s'.progs && (p.IoArm? || p.IoWait?) && p.timer.Some?
      ensures Pending(s', p.info, p.timer.value, p.fd, p.e)
    {
      assert p in s.progs;
      PendingOutside(s, a, p.info, p.timer.value, p.fd, p.e);
    }
  }

  // ------------------------------------------------------------------ every step, every run

  lemma OutsideRest(s: State, a: Action)
    requires TimeoutInv(s) && TimerKinds(s) && Enabled(s, a) && !a.OnRun? && !a.OnFiber? && !a.OnIdle?
    ensures OwnInfos(Apply(s, a)) && OwnTimers(Apply(s, a)) && OwnNames(Apply(s, a))
  {
    hide IoOpApply, Dropped, TimerOpApply, TimerOpEnabled, AllPending, OwnNames;
    var s' := Apply(s, a);
    if a.OutsideTimer? {
      TimerOpFrame(s, a.top);
      TimerOpNames(s, a.top);
      OutsideNew(s, a.top);
    } else {
      SameTimers(s, s');
    }
    forall p | p in s'.progs && Timed(p) ensures p in s.progs {}
    TimersKept(s, s');
  }

  lemma OutsideNew(s: State, op: TimerOp)
    requires TimerOpEnabled(s.timers, op)
    ensures
      var s' := TimerOpApply(s, op);
      s.nextTimer <= s'.nextTimer && forall t :: t in s'.timers ==>
          t in s.timers || (t.id == s.nextTimer < s'.nextTimer)
  {
    if op.OpMove? {
      forall t | t in TimerOpApply(s, op).timers ensures t in s.timers {}
    }
  }

  lemma RunRest(s: State, w: nat, a: RunStep)
    requires TimeoutInv(s) && TimerKinds(s) && w < |s.workers| && RunEnabled(s, w, a)
    ensures OwnInfos(RunApply(s, w, a)) && OwnTimers(RunApply(s, w, a)) && OwnNames(RunApply(s, w, a))
  {
    hide AllPending, OwnNames;
    if a.Resume? {
      ResumeInfos(s, w);
      ResumeTimersOwn(s, w);
    }
    SameTimers(s, RunApply(s, w, a));
  }

  lemma IdleRest(s: State, w: nat, a: IdleStep)
    requires TimeoutInv(s) && TimerKinds(s) && w < |s.workers| && IdleEnabled(s, w, a)
    ensures OwnInfos(IdleApply(s, w, a)) && OwnTimers(IdleApply(s, w, a)) && OwnNames(IdleApply(s, w, a))
  {
    hide AllPending, OwnNames, HandleReady, ReadyAsserts;
    if a.Expire? {
      ExpireNames(s, w, a.k, a.after);
      ExpireTimersOwn(s, w, a.k, a.after);
    } else {
      SameTimers(s, IdleApply(s, w, a));
    }
  }

  lemma TimeoutStep(s: State, a: Action)
    requires Inv(s) && TimeoutInv(s) && Enabled(s, a)
    ensures TimeoutInv(Apply(s, a))
  {
    hide OwnInfos, OwnTimers, OwnNames, AllPending, Ledger, KernelAgrees, Counters, Books, Placed, Kinds, TimerKinds;
    match a {
      case OnRun(w, r) =>
        RunRest(s, w, r);
        RunPending(s, w, r);
      case OnFiber(w, st) =>
        var g := s.workers[w].pc.fiber;
        FiberInfos(s, w, g, st);
        FiberTimers(s, w, g, st);
        FiberNames(s, w, g, st);
        FiberPending(s, w, g, st);
      case OnIdle(w, i) =>
        IdleRest(s, w, i);
        IdlePending(s, w, i);
      case _ =>
        OutsideRest(s, a);
        OutsidePending(s, a);
    }
  }

  lemma {:induction false} TimeoutsInEveryRun(s0: State, acts: seq<Action>)
    requires Init(s0) && Legal(s0, acts)
    ensures TimeoutInv(After(s0, acts))
    decreases |acts|
  {
    if acts == [] {
      forall id: nat ensures Sum(s0.timers, HasId(id)) <= 1 {}
    } else {
      hide TimeoutInv;
      var n := |acts| - 1;
      TimeoutsInEveryRun(s0, acts[..n]);
      EveryRunKeepsInv(s0, acts[..n]);
      TimeoutStep(After(s0, acts[..n]), acts[n]);
    }
  }

  lemma PendingOf(s: State, f: FiberId)
    requires TimeoutInv(s) && f < |s.progs| && s.progs[f].IoWait? && s.progs[f].timer.Some?
    ensures
      var p := s.progs[f];
      && p.info < |s.infos| && s.infos[p.info].alive
      && Pending(s, p.info, p.timer.value, p.fd, p.e)
      && (forall t :: t in s.timers && t.id == p.timer.value ==> t == Timer(t.id, TimeoutCb(p.info, p.fd, p.e), false))
  {
    hide Pending, OwnNames;
    assert s.progs[f] in s.progs && CallInfo(s.progs[f]).Some?;
  }

  lemma NamesApart(s: State)
    requires OwnNames(s)
    ensures forall i, j :: 0 <= i < j < |s.timers| ==> s.timers[i].id != s.timers[j].id
  {
    hide Sum;
    forall i, j | 0 <= i < j < |s.timers|
      ensures s.timers[i].id != s.timers[j].id
    {
      SumAtLeastTwo(s.timers, i, j, HasId(s.timers[i].id));
      assert Sum(s.timers, HasId(s.timers[i].id)) <= 1;
    }
  }

  /** In every run, a fiber that waits in a hooked call with a timeout has its timer armed, carrying exactly the
      descriptor and the event that it waits for, or that very callback is on its way, or the call is cancelled
      already. */
  lemma TimeoutIsPending(s0: State, acts: seq<Action>, f: FiberId)
    requires Init(s0) && Legal(s0, acts) && f < |After(s0, acts).progs|
    requires After(s0, acts).progs[f].IoWait? && After(s0, acts).progs[f].timer.Some?
    ensures
      var s := After(s0, acts);
      var p := s.progs[f];
      var cb := TimeoutCb(p.info, p.fd, p.e);
      && p.info < |s.infos| && s.infos[p.info].alive
      && (|| Timer(p.timer.value, cb, false) in s.timers
          || (exists w :: 0 <= w < |s.workers| && Carries(s.workers[w], cb))
          || CbTask(cb) in s.io.tasks
          || TimeoutNext(p.info, p.fd, p.e) in s.progs
          || s.infos[p.info].cancelled)
      && (forall t :: t in s.timers && t.id == p.timer.value ==> t == Timer(t.id, cb, false))
      && (forall i, j :: 0 <= i < j < |s.timers| ==> s.timers[i].id != s.timers[j].id)
  {
    hide Legal, After, Init, OwnNames, OwnInfos, OwnTimers, AllPending;
    TimeoutsInEveryRun(s0, acts);
    PendingOf(After(s0, acts), f);
    NamesApart(After(s0, acts));
  }
}
