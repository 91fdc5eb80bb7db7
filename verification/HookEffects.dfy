/** What each step of the hooked calls, of Run and of the idle loop does, field by field. */
module HookEffects {
  import opened Sums
  import opened Tasks
  import opened IoManager
  import opened IoEffects
  import opened Protocol

  ghost predicate Steady(s: State) {
    KernelAgrees(s.io, s.clobbered) && Ledger(s.io) && Sized(s.io)
  }

  // ------------------------------------------------------------------ sleep

  /** A hooked sleep arms one one-shot timer that will schedule the calling fiber, and suspends. */
  lemma SleepEffect(s: State, w: nat, f: FiberId, pos: nat)
    requires w < |s.workers| && FiberOk(s, f) && FiberEnabled(s, f, SleepCommit(pos))
    ensures
      var s' := FiberApply(s, w, f, SleepCommit(pos));
      && s'.timers == s.timers[..pos] + [Timer(s.nextTimer, WakeCb(f), false)] + s.timers[pos..]
      && s'.nextTimer == s.nextTimer + 1 && s'.progs == s.progs[f := SleepWait] && s'.io == s.io
  {
  }

  /** When it expires, its callback schedules that fiber on any thread, and nothing else. */
  lemma WakeEffect(s: State, w: nat, g: FiberId, f: FiberId)
    requires w < |s.workers| && FiberOk(s, g) && s.progs[g] == WakeNext(f)
    ensures
      FiberApply(s, w, g, RunWake)
      == s.(io := s.io.(tasks := s.io.tasks + [Task(Some(f), None, None)]), progs := s.progs[g := Done])
  {
  }

  // ------------------------------------------------------------------ do_io and connect

  /** The call makes a live, uncancelled timer_info of its own, and with a timeout a one-shot timer that carries it
      together with the descriptor and the event of the call. */
  lemma BeginEffect(s: State, w: nat, f: FiberId, fd: nat, e: Event, at: Option<nat>)
    requires w < |s.workers| && FiberOk(s, f) && FiberEnabled(s, f, IoBegin(fd, e, at))
    ensures
      var s' := FiberApply(s, w, f, IoBegin(fd, e, at));
      var info := |s.infos|;
      && s'.infos == s.infos + [Info(true, false)] && s'.io == s.io
      && s'.timers == (match at
                       case None => s.timers
                       case Some(pos) =>
                         s.timers[..pos] + [Timer(s.nextTimer, TimeoutCb(info, fd, e), false)] + s.timers[pos..])
      && s'.progs == s.progs[f := IoArm(info, if at.Some? then Some(s.nextTimer) else None, fd, e)]
  {
  }

  /** A retry keeps the timer_info and arms a new timer for the same descriptor and event. */
  lemma RetryEffect(s: State, w: nat, f: FiberId, at: Option<nat>)
    requires w < |s.workers| && FiberOk(s, f) && FiberEnabled(s, f, IoRetry(at))
    ensures
      var s' := FiberApply(s, w, f, IoRetry(at));
      var p := s.progs[f];
      && s'.infos == s.infos && !s.infos[p.info].cancelled && s'.io == s.io
      && s'.timers == (match at
                       case None => s.timers
                       case Some(pos) =>
                         s.timers[..pos] + [Timer(s.nextTimer, TimeoutCb(p.info, p.fd, p.e), false)] + s.timers[pos..])
      && s'.progs == s.progs[f := IoArm(p.info, if at.Some? then Some(s.nextTimer) else None, p.fd, p.e)]
  {
  }

  /** The call registers its event on its descriptor for the calling fiber, and waits; when AddEvent fails it goes on
      to its end without waiting. */
  lemma RegisterEffect(s: State, w: nat, f: FiberId, info: nat, t: Option<nat>, fd: nat, e: Event, fail: bool)
    requires Steady(s) && w < |s.workers| && FiberOk(s, f) && s.progs[f] == IoArm(info, t, fd, e)
    requires FiberEnabled(s, f, IoRegister(fail))
    ensures
      var s' := FiberApply(s, w, f, IoRegister(fail));
      && (!fail && fd !in s.clobbered ==>
            && Bit(s'.io, fd, e) && Slot(s'.io, fd, e).fiber == Some(f) && Slot(s'.io, fd, e).cb == None
            && s'.progs == s.progs[f := IoWait(info, t, fd, e)])
      && (fail || fd in s.clobbered ==>
            !Bit(s'.io, fd, e) && s'.progs == s.progs[f := IoWoken(info, t, fd, e, true)])
      && EventSame(s.io, s'.io, fd, Other(e)) && OthersSame(s.io, s'.io, fd)
      && s'.io.tasks == s.io.tasks && s'.timers == s.timers && s'.infos == s.infos
  {
    hide AddEvent;
    AddEventEffect(s.io, fd, e, Holder(0, None, f), fail, s.clobbered);
  }

  /** After the wait, or the failure, the call's own timer is not armed, and every other one is as it was. */
  lemma DisarmEffect(s: State, w: nat, f: FiberId, found: Option<nat>)
    requires w < |s.workers| && FiberOk(s, f) && FiberEnabled(s, f, IoDisarm(found))
    requires forall i, j :: 0 <= i < j < |s.timers| ==> s.timers[i].id != s.timers[j].id
    ensures
      var s' := FiberApply(s, w, f, IoDisarm(found));
      var p := s.progs[f];
      && (forall t :: t in s'.timers <==> t in s.timers && Some(t.id) != p.timer)
      && s'.io == s.io && s'.infos == s.infos && s'.progs == s.progs[f := IoEnd(p.info, p.fd, p.e, p.failed)]
  {
    if found.Some? {
      RemovedExactly(s.timers, found.value);
    }
  }

  lemma RemovedExactly(ts: seq<Timer>, i: nat)
    requires i < |ts| && forall k, j :: 0 <= k < j < |ts| ==> ts[k].id != ts[j].id
    ensures forall t :: t in Removed(ts, i) <==> t in ts && t.id != ts[i].id
  {
    assert ts == ts[..i] + [ts[i]] + ts[i + 1..];
    forall t | t in Removed(ts, i)
      ensures t in ts && t.id != ts[i].id
    {
      var j :| 0 <= j < |Removed(ts, i)| && Removed(ts, i)[j] == t;
      assert t == if j < i then ts[j] else ts[j + 1];
    }
  }

  /** When the call returns its timer_info dies, so no timeout of it does anything any more. */
  lemma ReturnEffect(s: State, w: nat, f: FiberId)
    requires w < |s.workers| && FiberOk(s, f) && FiberEnabled(s, f, IoReturn)
    ensures
      var s' := FiberApply(s, w, f, IoReturn);
      var info := s.progs[f].info;
      && s'.infos == s.infos[info := Info(false, s.infos[info].cancelled)]
      && s'.progs == s.progs[f := Code] && s'.io == s.io && s'.timers == s.timers
  {
  }

  // ------------------------------------------------------------------ the timeout

  /** The timeout of a live call that is not cancelled yet marks it cancelled and cancels exactly the event that the
      call registered: its holder is scheduled, and the other event of the descriptor is untouched. */
  lemma TimeoutEffect(s: State, w: nat, g: FiberId, info: nat, fd: nat, e: Event)
    requires Steady(s) && w < |s.workers| && FiberOk(s, g) && s.progs[g] == TimeoutNext(info, fd, e) && info < |s.infos|
    requires s.infos[info].alive && !s.infos[info].cancelled
    ensures
      var s1 := FiberApply(s, w, g, RunTimeout);
      && s1.infos == s.infos[info := Info(true, true)] && s1.io == s.io && s1.timers == s.timers
      && FiberOk(s1, g) && FiberEnabled(s1, g, RunCancel(false))
      && var s2 := FiberApply(s1, w, g, RunCancel(false));
         && s2.infos == s1.infos && s2.timers == s.timers && s2.progs == s.progs[g := Done]
         && (Bit(s.io, fd, e) && fd !in s.clobbered ==>
               && !Bit(s2.io, fd, e) && EventSame(s.io, s2.io, fd, Other(e)) && OthersSame(s.io, s2.io, fd)
               && s2.io.tasks == s.io.tasks + [Scheduling(Slot(s.io, fd, e))])
         && (!Bit(s.io, fd, e) || fd in s.clobbered ==> s2.io == s.io)
  {
    hide CancelEvent;
    CancelEventEffect(s.io, fd, e, false, s.clobbered);
  }

  /** In particular a fiber that waits in the call is put in the queue. */
  lemma TimeoutWakes(s: State, w: nat, g: FiberId, f: FiberId, info: nat, fd: nat, e: Event)
    requires Steady(s) && w < |s.workers| && FiberOk(s, g) && s.progs[g] == TimeoutNext(info, fd, e) && info < |s.infos|
    requires s.infos[info].alive && !s.infos[info].cancelled && fd !in s.clobbered
    requires Bit(s.io, fd, e) && Slot(s.io, fd, e).fiber == Some(f) && Slot(s.io, fd, e).cb == None
    ensures
      var s1 := FiberApply(s, w, g, RunTimeout);
      && FiberOk(s1, g) && FiberEnabled(s1, g, RunCancel(false))
      && FiberApply(s1, w, g, RunCancel(false)).io.tasks == s.io.tasks + [Task(Some(f), None, None)]
  {
    TimeoutEffect(s, w, g, info, fd, e);
  }

  /** The timeout of a call that has returned, or was cancelled before, does nothing. */
  lemma LateTimeout(s: State, w: nat, g: FiberId, info: nat, fd: nat, e: Event)
    requires w < |s.workers| && FiberOk(s, g) && s.progs[g] == TimeoutNext(info, fd, e) && info < |s.infos|
    requires !s.infos[info].alive || s.infos[info].cancelled
    ensures FiberApply(s, w, g, RunTimeout) == s.(progs := s.progs[g := Done])
  {
  }

  /** A call that was cancelled does not retry. */
  lemma CancelledDoesNotRetry(s: State, f: FiberId, at: Option<nat>)
    requires FiberOk(s, f) && s.progs[f].IoEnd? && s.progs[f].info < |s.infos|
    ensures FiberEnabled(s, f, IoReturn)
    ensures FiberEnabled(s, f, IoRetry(at)) ==> !s.infos[s.progs[f].info].cancelled && !s.progs[f].failed
  {
  }

  // ------------------------------------------------------------------ application code

  /** A task goes to the end of the queue as it is, and an empty one is dropped. */
  lemma ScheduleEffect(s: State, w: nat, f: FiberId, t: Task)
    requires w < |s.workers| && FiberOk(s, f) && FiberEnabled(s, f, CodeSchedule(t))
    ensures
      var s' := FiberApply(s, w, f, CodeSchedule(t));
      && s' == Apply(s, Submit(t)) == s.(io := s.io.(tasks := s'.io.tasks))
      && s'.io.tasks == if t.fiber.None? && t.cb.None? then s.io.tasks else s.io.tasks + [t]
  {
  }

  /** A new fiber is READY and queued for the thread it was asked for. */
  lemma SpawnEffect(s: State, w: nat, f: FiberId, thread: Option<nat>)
    requires w < |s.workers| && FiberOk(s, f) && FiberEnabled(s, f, CodeSpawn(thread))
    ensures
      var s' := FiberApply(s, w, f, CodeSpawn(thread));
      && s' == Apply(s, SubmitFiber(thread))
      && s'.io == s.io.(tasks := s.io.tasks + [Task(Some(|s.progs|), None, thread)])
      && s'.states == s.states + [READY] && s'.progs == s.progs + [Start]
  {
  }

  /** A fiber that schedules itself is queued for any thread, and suspends. */
  lemma SelfEffect(s: State, w: nat, f: FiberId)
    requires w < |s.workers| && FiberOk(s, f) && FiberEnabled(s, f, SelfCommit)
    ensures
      var s' := FiberApply(s, w, f, SelfCommit);
      && s'.io == s.io.(tasks := s.io.tasks + [Task(Some(f), None, None)])
      && s'.progs == s.progs[f := SelfWait] && s'.timers == s.timers
  {
  }

  /** AddEvent with a callback of the application registers that callback; the other event calls are those of
      `IoEffects`, and none of them suspends anybody. */
  lemma EventCallEffect(s: State, w: nat, f: FiberId, op: IoOp)
    requires Steady(s) && w < |s.workers| && FiberOk(s, f) && FiberEnabled(s, f, CodeIo(op))
    ensures
      var s' := FiberApply(s, w, f, CodeIo(op));
      && s' == s.(io := s'.io, lost := s'.lost)
      && match op
         case OpAdd(fd, e, id, fail) =>
           && (!fail && fd !in s.clobbered ==> Bit(s'.io, fd, e) && Slot(s'.io, fd, e).cb == Some(UserCb(id)))
           && EventSame(s.io, s'.io, fd, Other(e)) && OthersSame(s.io, s'.io, fd) && s'.io.tasks == s.io.tasks
         case OpDel(fd, e, fail) => s'.io == DelEvent(s.io, fd, e, fail).0
         case OpCancel(fd, e, fail) => s'.io == CancelEvent(s.io, fd, e, fail).0
         case OpCancelAll(fd, fail) => s'.io == CancelAll(s.io, fd, fail).0
  {
    hide AddEvent, DelEvent, CancelEvent, CancelAll;
    match op {
      case OpAdd(fd, e, id, fail) => AddEventEffect(s.io, fd, e, Holder(0, Some(UserCb(id)), f), fail, s.clobbered);
      case _ =>
    }
  }

  /** Timers of the application come, go and move; nothing else does. */
  lemma TimerCallEffect(s: State, w: nat, f: FiberId, op: TimerOp)
    requires w < |s.workers| && FiberOk(s, f) && FiberEnabled(s, f, CodeTimer(op))
    ensures
      var s' := FiberApply(s, w, f, CodeTimer(op));
      && s' == Apply(s, OutsideTimer(op)) == s.(timers := s'.timers, nextTimer := s'.nextTimer)
      && match op
         case OpArm(pos, id, recurring) =>
           s'.timers == s.timers[..pos] + [Timer(s.nextTimer, UserCb(id), recurring)] + s.timers[pos..]
         case OpDisarm(i) => s'.timers == s.timers[..i] + s.timers[i + 1..]
         case OpMove(i, j) =>
           multiset(s'.timers) == multiset(s.timers) && |s'.timers| == |s.timers| && s'.timers[j] == s.timers[i]
  {
    hide Moved;
    if op.OpMove? { MovedExactly(s.timers, op.i, op.j); }
  }

  /** Moving a timer to another place. */
  lemma MovedExactly(ts: seq<Timer>, i: nat, j: nat)
    requires i < |ts| && j < |ts|
    ensures multiset(Moved(ts, i, j)) == multiset(ts) && |Moved(ts, i, j)| == |ts| && Moved(ts, i, j)[j] == ts[i]
  {
    var rest := ts[..i] + ts[i + 1..];
    assert rest == Removed(ts, i);
    assert ts == ts[..i] + [ts[i]] + ts[i + 1..];
    assert multiset(ts) == multiset(ts[..i]) + multiset{ts[i]} + multiset(ts[i + 1..]);
    assert multiset(rest) == multiset(ts[..i]) + multiset(ts[i + 1..]);
    assert rest == rest[..j] + rest[j..];
    assert multiset(rest) == multiset(rest[..j]) + multiset(rest[j..]);
    var moved := rest[..j] + [ts[i]] + rest[j..];
    assert Moved(ts, i, j) == moved;
    assert multiset(moved) == multiset(rest[..j]) + multiset{ts[i]} + multiset(rest[j..]);
    assert multiset(moved) == multiset(rest) + multiset{ts[i]} == multiset(ts);
    assert moved[j] == ts[i];
  }

  // ------------------------------------------------------------------ close

  /** close wakes everybody who waits on the descriptor, READ first, and leaves nothing registered and no kernel
      entry. */
  lemma CloseEffect(s: State, w: nat, f: FiberId, fd: nat)
    requires Steady(s) && w < |s.workers| && FiberOk(s, f) && s.progs[f] == Code && fd !in s.clobbered
    ensures
      var s1 := FiberApply(s, w, f, CloseCancel(fd, false));
      && FiberOk(s1, f) && FiberEnabled(s1, f, CloseFd)
      && var s2 := FiberApply(s1, w, f, CloseFd);
         && !Bit(s2.io, fd, READ) && !Bit(s2.io, fd, WRITE) && fd !in s2.io.kernel && s2.clobbered == s.clobbered
         && s2.io.tasks == s.io.tasks + Gone(s.io, fd, Bit(s.io, fd, READ), Bit(s.io, fd, WRITE))
         && OthersSame(s.io, s2.io, fd) && s2.progs == s.progs[f := Code]
  {
    hide CancelAll;
    CancelAllEffect(s.io, fd, false, s.clobbered);
    var s1 := FiberApply(s, w, f, CloseCancel(fd, false));
    assert s1.io.Events(fd).None() by {
      assert !Bit(s1.io, fd, READ) && !Bit(s1.io, fd, WRITE);
    }
    assert s.progs[f := CloseNext(fd)][f := Code] == s.progs[f := Code];
    assert s.io.tasks + [] == s.io.tasks;
    ClosedOthers(s.io, s1.io, fd);
  }

  // ------------------------------------------------------------------ Run

  /** A callback task runs in a new fiber that does what the callback says; a fiber task goes on after its wait. */
  lemma ResumeEffect(s: State, w: nat)
    requires w < |s.workers| && s.workers[w].pc.Got? && FiberCounts(s)
    requires s.workers[w].pc.task.fiber.Some? ==> FiberOk(s, s.workers[w].pc.task.fiber.value)
    requires s.workers[w].pc.task.fiber.None? ==> s.workers[w].pc.task.cb.Some?
    ensures
      var t := s.workers[w].pc.task;
      var s' := ResumeTask(s, w);
      match t.fiber
      case Some(f) =>
        && s'.workers == s.workers[w := s.workers[w].(pc := Running(f))] && s'.states == s.states[f := RUNNING]
        && s'.progs == s.progs[f := match s.progs[f]
                                    case IoWait(info, timer, fd, e) => IoWoken(info, timer, fd, e, false)
                                    case _ => Code]
      case None =>
        var f := |s.progs|;
        && s'.workers == s.workers[w := s.workers[w].(pc := Running(f))] && s'.states == s.states + [RUNNING]
        && s'.progs == s.progs + [match t.cb.value
                                  case UserCb(_) => Code
                                  case WakeCb(g) => WakeNext(g)
                                  case TimeoutCb(info, fd, e) => TimeoutNext(info, fd, e)]
  {
  }

  ghost predicate FiberCounts(s: State) {
    |s.states| == |s.progs| == |s.commits| == |s.dispatches|
  }

  /** The running fiber suspends or ends, and its worker has finished the task. */
  lemma LeaveEffect(s: State, w: nat, f: FiberId)
    requires w < |s.workers| && FiberOk(s, f)
    ensures
      && (Waits(s.progs[f]) ==>
            FiberApply(s, w, f, YieldWait)
            == s.(workers := s.workers[w := s.workers[w].(pc := Ran)], states := s.states[f := READY]))
      && (s.progs[f] == Code || s.progs[f] == Done ==>
            FiberApply(s, w, f, End)
            == s.(workers := s.workers[w := s.workers[w].(pc := Ran)], states := s.states[f := TERM],
                  progs := s.progs[f := Done]))
  {
  }

  // ------------------------------------------------------------------ the idle loop

  /** Expiry pops the callbacks of the first k timers in order; the one-shot ones are gone, the recurring ones and all
      later timers stay armed. */
  lemma ExpireEffect(s: State, w: nat, k: nat, after: seq<Timer>)
    requires w < |s.workers| && IdleEnabled(s, w, Expire(k, after))
    ensures
      var s' := IdleApply(s, w, Expire(k, after));
      && |s'.workers[w].cbs| == k && (forall i :: 0 <= i < k ==> s'.workers[w].cbs[i] == s.timers[i].cb)
      && s'.timers == after && s'.io == s.io && s'.workers[w].pc == Delivering
      && (forall t: Timer :: multiset(after)[t] ==
            multiset(s.timers[k..])[t] + if t.recurring then multiset(s.timers[..k])[t] else 0)
  {
    forall t: Timer
      ensures multiset(after)[t] == multiset(s.timers[k..])[t] + if t.recurring then multiset(s.timers[..k])[t] else 0
    {
      RecurringCount(s.timers[..k], t);
    }
  }

  lemma {:induction false} RecurringCount(ts: seq<Timer>, t: Timer)
    ensures multiset(Recurring(ts))[t] == if t.recurring then multiset(ts)[t] else 0
  {
    if ts != [] {
      var n := |ts| - 1;
      RecurringCount(ts[..n], t);
      assert ts == ts[..n] + [ts[n]];
    }
  }

  /** Each popped callback goes to the end of the queue, in order, for any thread. */
  lemma DeliverEffect(s: State, w: nat)
    requires w < |s.workers| && IdleEnabled(s, w, ScheduleCb)
    ensures
      var s' := IdleApply(s, w, ScheduleCb);
      && s'.io == s.io.(tasks := s.io.tasks + [Task(None, Some(s.workers[w].cbs[0]), None)])
      && s'.workers == s.workers[w := s.workers[w].(cbs := s.workers[w].cbs[1..])] && s'.timers == s.timers
  {
  }

  /** The first report is handled and dropped. */
  lemma ReportEffect(s: State, w: nat)
    requires Steady(s) && w < |s.workers| && IdleEnabled(s, w, HandleReport(false))
    requires s.workers[w].reports[0].fd !in s.clobbered
    ensures
      var s' := IdleApply(s, w, HandleReport(false));
      var fd, r := s.workers[w].reports[0].fd, s.workers[w].reports[0].ready;
      && (Bit(s'.io, fd, READ) <==> Bit(s.io, fd, READ) && !r.errHup && !r.readIn)
      && (Bit(s'.io, fd, WRITE) <==> Bit(s.io, fd, WRITE) && !r.errHup && !r.writeOut)
      && s'.io.tasks == s.io.tasks + Gone(s.io, fd, Bit(s.io, fd, READ) && (r.errHup || r.readIn),
                                          Bit(s.io, fd, WRITE) && (r.errHup || r.writeOut))
      && OthersSame(s.io, s'.io, fd)
      && s'.workers == s.workers[w := s.workers[w].(reports := s.workers[w].reports[1..])] && s'.timers == s.timers
  {
    hide HandleReady, ReadyAsserts;
    var fd, r := s.workers[w].reports[0].fd, s.workers[w].reports[0].ready;
    HandleReadyEffect(s.io, fd, r, s.clobbered);
  }

  /** The idle fiber ends if and only if no timer is armed, no event is pending, and Stop was called with nothing queued
      and nothing in flight, each at the moment of its read. */
  lemma IdleEndsExactly(s: State, w: nat)
    requires w < |s.workers|
    ensures s.workers[w].pc == CheckTimers ==>
      IdleApply(s, w, ReadTimers).workers[w].pc == if s.timers == [] then CheckPending else Waiting
    ensures s.workers[w].pc == CheckPending ==>
      IdleApply(s, w, ReadPending).workers[w].pc == if s.io.pending == 0 then CheckBase else Waiting
    ensures s.workers[w].pc == CheckBase ==>
      var wk := IdleApply(s, w, ReadBase).workers[w];
      if s.stopping && s.io.tasks == [] && s.active == 0 then wk.pc == IdleReturned && wk.idleTerm
      else wk == s.workers[w].(pc := Waiting)
  {
  }
}
