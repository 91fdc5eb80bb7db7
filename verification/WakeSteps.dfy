/** Every step keeps the wake-up sources exact. */
module WakeSteps {
  import opened Sums
  import opened Tasks
  import opened IoManager
  import opened Protocol
  import opened WakeTokens

  // ------------------------------------------------------------------ submissions

  lemma SubmitOne(s: State, t: Task, f: FiberId)
    requires OneHolder(s, f) && UserTask(t)
    ensures OneHolder(Enqueue(s, t), f)
  {
    hide Sum;
    EnqueueHolders(s.io, t, f);
  }

  lemma SpawnOne(s: State, thread: Option<nat>, f: FiberId)
    requires OneHolder(s, f) && LostWait(s)
    ensures OneHolder(Spawn(s, thread), f)
  {
    hide Sum;
    EnqueueHolders(s.io, Task(Some(|s.progs|), None, thread), f);
    SumAppend(s.progs, Start, InProg(f));
  }

  // ------------------------------------------------------------------ Run

  lemma TakeOne(s: State, w: nat, i: nat, f: FiberId)
    requires OneHolder(s, f) && w < |s.workers| && RunEnabled(s, w, Take(i))
    ensures OneHolder(RunApply(s, w, Take(i)), f)
  {
    hide Sum;
    SumRemove(s.io.tasks, i, InTask(f));
    PcHolders(s, w, Got(s.io.tasks[i]), f);
  }

  lemma ResumeFiberOne(s: State, w: nat, f: FiberId)
    requires OneHolder(s, f) && w < |s.workers| && RunEnabled(s, w, Resume)
    requires s.workers[w].pc.task.fiber.Some? && s.workers[w].pc.task.cb.None?
    requires Awaited(s, s.workers[w].pc.task.fiber.value)
    ensures OneHolder(ResumeTask(s, w), f)
  {
    hide Sum;
    var g := s.workers[w].pc.task.fiber.value;
    PcHolders(s, w, Running(g), f);
    ProgHolders(s.progs, g, Woken(s.progs[g]), f);
  }

  lemma ResumeCbOne(s: State, w: nat, f: FiberId)
    requires OneHolder(s, f) && w < |s.workers| && RunEnabled(s, w, Resume)
    requires s.workers[w].pc.task.fiber.None?
    ensures OneHolder(ResumeTask(s, w), f)
  {
    hide Sum;
    var t := s.workers[w].pc.task;
    PcHolders(s, w, Running(|s.progs|), f);
    SumAppend(s.progs, if t.cb.Some? then Body(t.cb.value) else Done, InProg(f));
  }

  lemma MoveOne(s: State, w: nat, a: RunStep, f: FiberId)
    requires OneHolder(s, f) && w < |s.workers| && RunEnabled(s, w, a) && !a.Take? && !a.Resume?
    ensures OneHolder(RunApply(s, w, a), f)
  {
    hide Sum;
    PcHolders(s, w, RunApply(s, w, a).workers[w].pc, f);
  }

  // ------------------------------------------------------------------ timers

  lemma ArmHolders(s: State, pos: nat, cb: Callback, recurring: bool, f: FiberId)
    requires pos <= |s.timers|
    ensures Sum(Arm(s, pos, cb, recurring).timers, InTimer(f)) == Sum(s.timers, InTimer(f)) + CbHolds(cb, f)
  {
    hide Sum;
    SumInsert(s.timers, pos, Timer(s.nextTimer, cb, recurring), InTimer(f));
  }

  lemma TimerOpOne(s: State, op: TimerOp, f: FiberId)
    requires OneHolder(s, f) && TimerOpEnabled(s.timers, op)
    ensures OneHolder(TimerOpApply(s, op), f)
  {
    hide Sum;
    match op
    case OpArm(pos, id, recurring) => ArmHolders(s, pos, UserCb(id), recurring, f);
    case OpDisarm(i) => SumRemove(s.timers, i, InTimer(f));
    case OpMove(i, j) =>
      SumRemove(s.timers, i, InTimer(f));
      SumInsert(Removed(s.timers, i), j, s.timers[i], InTimer(f));
  }

  // ------------------------------------------------------------------ fiber steps

  /** A change of registrations that moves no holder and drops none. */
  lemma IoOne(s: State, io: Io, lost: set<FiberId>, f: FiberId)
    requires OneHolder(s, f) && IoHolders(io, f) == IoHolders(s.io, f) && (f in lost <==> f in s.lost)
    ensures OneHolder(s.(io := io, lost := lost), f)
  {
    hide Sum, IoHolders;
  }

  lemma DelOne(s: State, op: IoOp, g: FiberId, f: FiberId)
    requires OneHolder(s, f) && Ledger(s.io) && op.OpDel?
    ensures OneHolder(IoCall(s, op, g), f)
  {
    hide Sum;
    DelHolders(s.io, op.fd, op.e, op.fail, f);
    if DelEvent(s.io, op.fd, op.e, op.fail).1 {
      assert s.io.contexts[op.fd].Ok();
    }
  }

  lemma CodeIoOne(s: State, op: IoOp, g: FiberId, f: FiberId)
    requires Tokens(s) && Ledger(s.io) && Sized(s.io) && IoOpEnabled(s.io, op)
    ensures OneHolder(IoCall(s, op, g), f)
  {
    hide Sum, IoHolders, AddEvent, DelEvent, CancelEvent, CancelAll, Ledger, MayAdd;
    assert OneHolder(s, f);
    match op {
      case OpDel(fd, e, fail) => DelOne(s, op, g, f);
      case OpAdd(fd, e, id, fail) =>
        AddHolders(s.io, fd, e, Holder(0, Some(UserCb(id)), g), fail, f);
        IoOne(s, IoOpApply(s.io, op, g), s.lost + Dropped(s.io, op), f);
      case OpCancel(fd, e, fail) =>
        CancelHolders(s.io, fd, e, fail, f);
        IoOne(s, IoOpApply(s.io, op, g), s.lost + Dropped(s.io, op), f);
      case OpCancelAll(fd, fail) =>
        CancelAllHolders(s.io, fd, fail, f);
        IoOne(s, IoOpApply(s.io, op, g), s.lost + Dropped(s.io, op), f);
    }
  }

  lemma SelfCommitOne(s: State, g: FiberId, f: FiberId)
    requires OneHolder(s, f) && LostWait(s) && FiberOk(s, g) && s.progs[g] == Code
    ensures OneHolder(Commit(Enqueue(s, FiberTask(g)), g, SelfWait), f)
  {
    hide Sum;
    EnqueueHolders(s.io, FiberTask(g), f);
    ProgHolders(s.progs, g, SelfWait, f);
  }

  lemma SleepCommitOne(s: State, pos: nat, g: FiberId, f: FiberId)
    requires OneHolder(s, f) && LostWait(s) && FiberOk(s, g) && s.progs[g] == Code && pos <= |s.timers|
    ensures OneHolder(Commit(Arm(s, pos, WakeCb(g), false), g, SleepWait), f)
  {
    hide Sum;
    ArmHolders(s, pos, WakeCb(g), false, f);
    ProgHolders(s.progs, g, SleepWait, f);
  }

  /** Steps of the running fiber that neither commit it nor wake anybody. */
  lemma QuietProgOne(s: State, g: FiberId, p: Prog, f: FiberId)
    requires OneHolder(s, f) && g < |s.progs|
    requires !Waits(s.progs[g]) && !Waits(p) && !p.WakeNext? && !s.progs[g].WakeNext?
    ensures OneHolder(SetProg(s, g, p), f)
  {
    hide Sum;
    ProgHolders(s.progs, g, p, f);
  }

  lemma ArmTimeoutOne(s: State, g: FiberId, at: Option<nat>, info: nat, fd: nat, e: Event, f: FiberId)
    requires OneHolder(s, f) && g < |s.progs| && ArmAt(s, at)
    requires !Waits(s.progs[g]) && !s.progs[g].WakeNext?
    ensures OneHolder(ArmTimeout(s, g, at, info, fd, e), f)
  {
    hide Sum;
    if at.Some? {
      ArmHolders(s, at.value, TimeoutCb(info, fd, e), false, f);
      QuietProgOne(Arm(s, at.value, TimeoutCb(info, fd, e), false), g, IoArm(info, Some(s.nextTimer), fd, e), f);
    } else {
      QuietProgOne(s, g, IoArm(info, None, fd, e), f);
    }
  }

  /** Committing pairs with the one holder that was made for it just before. */
  lemma CommitOne(s: State, g: FiberId, p: Prog, f: FiberId)
    requires FiberOk(s, g) && !Waits(s.progs[g]) && !s.progs[g].WakeNext? && Waits(p) && g !in s.lost
    requires Holders(s, f) == if Awaited(s, f) || f == g then 1 else 0
    ensures OneHolder(Commit(s, g, p), f)
  {
    hide Sum;
    ProgHolders(s.progs, g, p, f);
  }

  lemma RegisterOne(s: State, g: FiberId, fail: bool, f: FiberId)
    requires Tokens(s) && Ledger(s.io) && Sized(s.io) && LostWait(s)
    requires FiberOk(s, g) && FiberEnabled(s, g, IoRegister(fail))
    ensures OneHolder(Register(s, g, fail), f)
  {
    hide Sum, AddEvent, Ledger;
    assert OneHolder(s, f);
    var p := s.progs[g];
    AddHolders(s.io, p.fd, p.e, Holder(0, None, g), fail, f);
    var io' := AddEvent(s.io, p.fd, p.e, Holder(0, None, g), fail).0;
    if AddEvent(s.io, p.fd, p.e, Holder(0, None, g), fail).1 {
      CommitOne(s.(io := io'), g, IoWait(p.info, p.timer, p.fd, p.e), f);
    } else {
      QuietProgOne(s.(io := io'), g, IoWoken(p.info, p.timer, p.fd, p.e, true), f);
    }
  }

  lemma DisarmOne(s: State, g: FiberId, found: Option<nat>, f: FiberId)
    requires OneHolder(s, f) && TimerKinds(s)
    requires FiberOk(s, g) && FiberEnabled(s, g, IoDisarm(found))
    ensures OneHolder(Disarm(s, g, found), f)
  {
    hide Sum;
    var p := s.progs[g];
    assert p in s.progs;
    if found.Some? {
      assert s.timers[found.value] in s.timers;
      SumRemove(s.timers, found.value, InTimer(f));
      QuietProgOne(s.(timers := Removed(s.timers, found.value)), g, IoEnd(p.info, p.fd, p.e, p.failed), f);
    } else {
      QuietProgOne(s, g, IoEnd(p.info, p.fd, p.e, p.failed), f);
    }
  }

  lemma RunWakeOne(s: State, g: FiberId, f: FiberId)
    requires OneHolder(s, f) && FiberOk(s, g) && s.progs[g].WakeNext?
    ensures OneHolder(SetProg(Enqueue(s, FiberTask(s.progs[g].target)), g, Done), f)
  {
    hide Sum;
    EnqueueHolders(s.io, FiberTask(s.progs[g].target), f);
    ProgHolders(s.progs, g, Done, f);
  }

  lemma CloseOne(s: State, g: FiberId, f: FiberId)
    requires OneHolder(s, f) && FiberOk(s, g) && s.progs[g].CloseNext?
    ensures OneHolder(Close(s, g), f)
  {
    hide Sum;
    ProgHolders(s.progs, g, Code, f);
  }

  lemma SameHolder(s: State, s1: State, f: FiberId)
    requires OneHolder(s, f) && s1 == s.(infos := s1.infos)
    ensures OneHolder(s1, f)
  {
  }

  lemma TimeoutOne(s: State, g: FiberId, f: FiberId)
    requires OneHolder(s, f) && FiberOk(s, g) && FiberEnabled(s, g, RunTimeout)
    ensures OneHolder(Timeout(s, g), f)
  {
    hide Sum, OneHolder;
    var p := s.progs[g];
    if !s.infos[p.info].alive || s.infos[p.info].cancelled {
      QuietProgOne(s, g, Done, f);
    } else {
      var s1 := s.(infos := s.infos[p.info := s.infos[p.info].(cancelled := true)]);
      SameHolder(s, s1, f);
      QuietProgOne(s1, g, CancelNext(p.fd, p.e), f);
    }
  }

  lemma LeaveOne(s: State, w: nat, g: FiberId, term: bool, f: FiberId)
    requires OneHolder(s, f) && w < |s.workers| && s.workers[w].pc == Running(g) && FiberOk(s, g)
    requires term ==> !Waits(s.progs[g]) && !s.progs[g].WakeNext?
    ensures OneHolder(Leave(s, w, g, term), f)
  {
    hide Sum;
    PcHolders(s, w, Ran, f);
    ProgHolders(s.progs, g, Done, f);
  }

  /** Steps of application code. */
  predicate IsCode(a: FiberStep) {
    a.CodeSchedule? || a.CodeSpawn? || a.CodeIo? || a.CodeTimer? || a.SelfCommit? || a.SleepCommit? || a.IoBegin?
    || a.CloseCancel?
  }

  lemma CodeOne(s: State, w: nat, g: FiberId, a: FiberStep, f: FiberId)
    requires Tokens(s) && Ledger(s.io) && Sized(s.io) && LostWait(s)
    requires w < |s.workers| && FiberOk(s, g) && FiberEnabled(s, g, a) && IsCode(a)
    ensures OneHolder(FiberApply(s, w, g, a), f)
  {
    hide Sum, CancelAll, Ledger, Spawn, Commit, Arm, TimerOpApply, IoOpApply, ArmTimeout, MayAdd, TimerOpEnabled;
    assert OneHolder(s, f);
    match a
    case CodeSchedule(t) => SubmitOne(s, t, f);
    case CodeSpawn(thread) => SpawnOne(s, thread, f);
    case CodeIo(op) => CodeIoOne(s, op, g, f);
    case CodeTimer(op) => TimerOpOne(s, op, f);
    case SelfCommit => SelfCommitOne(s, g, f);
    case SleepCommit(pos) => SleepCommitOne(s, pos, g, f);
    case IoBegin(fd, e, at) => IoBeginOne(s, g, fd, e, at, f);
    case CloseCancel(fd, fail) => CloseCancelOne(s, g, fd, fail, f);
  }

  lemma IoBeginOne(s: State, g: FiberId, fd: nat, e: Event, at: Option<nat>, f: FiberId)
    requires OneHolder(s, f) && FiberOk(s, g) && s.progs[g] == Code && ArmAt(s, at)
    ensures OneHolder(ArmTimeout(s.(infos := s.infos + [Info(true, false)]), g, at, |s.infos|, fd, e), f)
  {
    hide Sum, ArmTimeout;
    ArmTimeoutOne(s.(infos := s.infos + [Info(true, false)]), g, at, |s.infos|, fd, e, f);
  }

  lemma CloseCancelOne(s: State, g: FiberId, fd: nat, fail: bool, f: FiberId)
    requires OneHolder(s, f) && FiberOk(s, g) && s.progs[g] == Code
    ensures OneHolder(SetProg(s.(io := CancelAll(s.io, fd, fail).0), g, CloseNext(fd)), f)
  {
    hide Sum, CancelAll;
    CancelAllHolders(s.io, fd, fail, f);
    QuietProgOne(s.(io := CancelAll(s.io, fd, fail).0), g, CloseNext(fd), f);
  }

  lemma HookOne(s: State, w: nat, g: FiberId, a: FiberStep, f: FiberId)
    requires Tokens(s) && Ledger(s.io) && Sized(s.io) && LostWait(s) && TimerKinds(s)
    requires w < |s.workers| && FiberOk(s, g) && FiberEnabled(s, g, a) && !IsCode(a)
    requires s.workers[w].pc == Running(g)
    ensures OneHolder(FiberApply(s, w, g, a), f)
  {
    hide Sum, CancelEvent, AddEvent, MayAdd, Ledger, Register, Disarm, Close, ArmTimeout, TimerKinds;
    var p := s.progs[g];
    assert OneHolder(s, f);
    match a
    case IoRegister(fail) => RegisterOne(s, g, fail, f);
    case IoDisarm(found) => DisarmOne(s, g, found, f);
    case IoReturn => QuietProgOne(s.(infos := s.infos[p.info := s.infos[p.info].(alive := false)]), g, Code, f);
    case IoRetry(at) => ArmTimeoutOne(s, g, at, p.info, p.fd, p.e, f);
    case CloseFd => CloseOne(s, g, f);
    case RunWake => RunWakeOne(s, g, f);
    case RunTimeout => TimeoutOne(s, g, f);
    case RunCancel(fail) =>
      CancelHolders(s.io, p.fd, p.e, fail, f);
      QuietProgOne(s.(io := CancelEvent(s.io, p.fd, p.e, fail).0), g, Done, f);
    case YieldWait => LeaveOne(s, w, g, false, f);
    case End => LeaveOne(s, w, g, true, f);
  }

  // ------------------------------------------------------------------ Idle

  lemma {:induction false} CbsOfHolders(ts: seq<Timer>, f: FiberId)
    ensures Sum(CbsOf(ts), InCb(f)) == Sum(ts, InTimer(f))
  {
    if ts != [] {
      var n := |ts| - 1;
      CbsOfHolders(ts[..n], f);
      assert CbsOf(ts)[..n] == CbsOf(ts[..n]);
    }
  }

  lemma {:induction false} RecurringHolders(ts: seq<Timer>, f: FiberId)
    requires forall t :: t in ts && t.recurring ==> t.cb.UserCb?
    ensures Sum(Recurring(ts), InTimer(f)) == 0
  {
    if ts != [] {
      var n := |ts| - 1;
      RecurringHolders(ts[..n], f);
      if ts[n].recurring {
        SumAppend(Recurring(ts[..n]), ts[n], InTimer(f));
      } else {
        assert Recurring(ts) == Recurring(ts[..n]);
      }
    }
  }

  /** What is popped and what stays armed hold together what was armed. */
  lemma ExpireHolders(timers: seq<Timer>, k: nat, after: seq<Timer>, f: FiberId)
    requires k <= |timers| && multiset(after) == multiset(timers[k..] + Recurring(timers[..k]))
    requires forall t :: t in timers && t.recurring ==> t.cb.UserCb?
    ensures Sum(after, InTimer(f)) + Sum(CbsOf(timers[..k]), InCb(f)) == Sum(timers, InTimer(f))
  {
    hide Sum;
    var due := timers[..k];
    assert timers == due + timers[k..];
    SumConcat(due, timers[k..], InTimer(f));
    CbsOfHolders(due, f);
    RecurringHolders(due, f);
    SumPermutation(after, timers[k..] + Recurring(due), InTimer(f));
    SumConcat(timers[k..], Recurring(due), InTimer(f));
  }

  lemma ExpireOne(s: State, w: nat, k: nat, after: seq<Timer>, f: FiberId)
    requires OneHolder(s, f) && TimerKinds(s) && w < |s.workers| && IdleEnabled(s, w, Expire(k, after))
    requires s.workers[w].cbs == []
    ensures OneHolder(IdleApply(s, w, Expire(k, after)), f)
  {
    hide Sum, IoHolders, Recurring;
    ExpireHolders(s.timers, k, after, f);
    SumEmpty(InCb(f));
    SumUpdate(s.workers, w, s.workers[w].(pc := Delivering, cbs := CbsOf(s.timers[..k])), InWorker(f));
  }

  lemma FirstCb(wk: Worker, f: FiberId)
    requires wk.cbs != []
    ensures InWorker(f)(wk) == InWorker(f)(wk.(cbs := wk.cbs[1..])) + CbHolds(wk.cbs[0], f)
  {
    hide Sum;
    SumEmpty(InCb(f));
    SumSplit(wk.cbs, 0, InCb(f));
    assert wk.cbs[..0] == [];
  }

  lemma ScheduleCbOne(s: State, w: nat, f: FiberId)
    requires OneHolder(s, f) && w < |s.workers| && IdleEnabled(s, w, ScheduleCb)
    ensures OneHolder(IdleApply(s, w, ScheduleCb), f)
  {
    hide Sum;
    var wk := s.workers[w];
    FirstCb(wk, f);
    SumUpdate(s.workers, w, wk.(cbs := wk.cbs[1..]), InWorker(f));
    EnqueueHolders(s.io, CbTask(wk.cbs[0]), f);
  }

  lemma IdleOne(s: State, w: nat, a: IdleStep, f: FiberId)
    requires OneHolder(s, f) && TimerKinds(s) && w < |s.workers| && IdleEnabled(s, w, a)
    requires s.workers[w].pc == Expiring ==> s.workers[w].cbs == []
    ensures OneHolder(IdleApply(s, w, a), f)
  {
    hide Sum, HandleReady, ReadyAsserts, TimerKinds, IoHolders;
    match a
    case Expire(k, after) => ExpireOne(s, w, k, after, f);
    case ScheduleCb => ScheduleCbOne(s, w, f);
    case HandleReport(fail) =>
      var r := s.workers[w].reports[0];
      ReadyHolders(s.io, r.fd, r.ready, fail, f);
      SumUpdate(s.workers, w, IdleApply(s, w, a).workers[w], InWorker(f));
    case _ => SumUpdate(s.workers, w, IdleApply(s, w, a).workers[w], InWorker(f));
  }
}
