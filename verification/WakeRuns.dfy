/** The full invariant over every step, and what it means for whole runs with any number of workers. */
module WakeRuns {
  import opened Sums
  import opened Tasks
  import opened IoManager
  import opened Protocol
  import opened WakeTokens
  import opened WakeSteps

  // ------------------------------------------------------------------ what a fiber step may change

  /** A step of fiber `g` on worker `w`: only its own program changes, it stays committed once it is, and
      new fibers start READY and committed. */
  ghost predicate FiberFrame(s: State, s': State, w: nat, g: FiberId)
    requires Shape(s) && w < |s.workers| && FiberOk(s, g)
  {
    && s'.active == s.active && s'.idle == s.idle
    && |s'.states| == |s'.progs| == |s'.commits| == |s'.dispatches| && |s.progs| <= |s'.progs|
    && (forall f :: 0 <= f < |s.progs| && f != g ==>
          s'.progs[f] == s.progs[f] && s'.commits[f] == s.commits[f] && s'.dispatches[f] == s.dispatches[f])
    && (forall f :: |s.progs| <= f < |s'.progs| ==>
          s'.progs[f] == Start && s'.states[f] == READY && s'.commits[f] == 1 && s'.dispatches[f] == 0)
    && s'.dispatches[g] == s.dispatches[g]
    && s'.commits[g] + (if Waits(s.progs[g]) then 1 else 0) == s.commits[g] + (if Waits(s'.progs[g]) then 1 else 0)
    && (Waits(s.progs[g]) ==> s'.progs[g] == s.progs[g])
    && s'.lost == s.lost + (s'.lost - s.lost)
  }

  ghost predicate Stays(s: State, s': State) {
    s'.workers == s.workers && |s.states| <= |s'.states|
    && forall f :: 0 <= f < |s.states| ==> s'.states[f] == s.states[f]
  }

  ghost predicate Leaves(s: State, s': State, w: nat, g: FiberId)
    requires w < |s.workers| && FiberOk(s, g)
  {
    && s'.workers == s.workers[w := s.workers[w].(pc := Ran)]
    && |s'.states| == |s.states| == |s'.progs|
    && (forall f :: 0 <= f < |s.states| && f != g ==> s'.states[f] == s.states[f])
    && (s'.states[g] == READY || (s'.states[g] == TERM && !Waits(s'.progs[g])))
  }

  predicate Departs(a: FiberStep) { a.YieldWait? || a.End? }

  lemma CodeFrame(s: State, w: nat, g: FiberId, a: FiberStep)
    requires Shape(s) && w < |s.workers| && FiberOk(s, g) && FiberEnabled(s, g, a) && IsCode(a)
    ensures FiberFrame(s, FiberApply(s, w, g, a), w, g)
    ensures Stays(s, FiberApply(s, w, g, a))
  {
    hide FiberFrame, Stays, FiberApply, FiberEnabled;
    if a.CodeSchedule? || a.CodeSpawn? || a.CodeIo? || a.CodeTimer? {
      CallFrame(s, w, g, a);
    } else {
      CommitFrame(s, w, g, a);
    }
  }

  /** Calls that return at once. */
  lemma CallFrame(s: State, w: nat, g: FiberId, a: FiberStep)
    requires Shape(s) && w < |s.workers| && FiberOk(s, g) && FiberEnabled(s, g, a)
    requires a.CodeSchedule? || a.CodeSpawn? || a.CodeIo? || a.CodeTimer?
    ensures FiberFrame(s, FiberApply(s, w, g, a), w, g) && Stays(s, FiberApply(s, w, g, a))
  {
    hide IoOpApply, IoOpEnabled, Scheduled, Dropped, Removed, Moved;
  }

  /** Calls that suspend, or begin to. */
  lemma CommitFrame(s: State, w: nat, g: FiberId, a: FiberStep)
    requires Shape(s) && w < |s.workers| && FiberOk(s, g) && FiberEnabled(s, g, a)
    requires a.SelfCommit? || a.SleepCommit? || a.IoBegin? || a.CloseCancel?
    ensures FiberFrame(s, FiberApply(s, w, g, a), w, g) && Stays(s, FiberApply(s, w, g, a))
  {
    hide CancelAll, Scheduled;
  }

  lemma HookFrame(s: State, w: nat, g: FiberId, a: FiberStep)
    requires Shape(s) && w < |s.workers| && FiberOk(s, g) && FiberEnabled(s, g, a) && !IsCode(a)
    ensures FiberFrame(s, FiberApply(s, w, g, a), w, g)
    ensures if Departs(a) then Leaves(s, FiberApply(s, w, g, a), w, g) else Stays(s, FiberApply(s, w, g, a))
  {
    hide FiberApply, FiberEnabled, FiberFrame, Stays, Leaves;
    if Departs(a) {
      LeaveFrame(s, w, g, a);
    } else if a.IoRegister? {
      RegisterFrame(s, w, g, a);
    } else if a.IoDisarm? || a.IoReturn? || a.IoRetry? {
      IoFrame(s, w, g, a);
    } else {
      BodyFrame(s, w, g, a);
    }
  }

  lemma RegisterFrame(s: State, w: nat, g: FiberId, a: FiberStep)
    requires Shape(s) && w < |s.workers| && FiberOk(s, g) && FiberEnabled(s, g, a) && a.IoRegister?
    ensures FiberFrame(s, FiberApply(s, w, g, a), w, g) && Stays(s, FiberApply(s, w, g, a))
  {
    hide AddEvent, Grown, MayAdd;
  }

  /** The other steps of do_io and connect. */
  lemma IoFrame(s: State, w: nat, g: FiberId, a: FiberStep)
    requires Shape(s) && w < |s.workers| && FiberOk(s, g) && FiberEnabled(s, g, a)
    requires a.IoDisarm? || a.IoReturn? || a.IoRetry?
    ensures FiberFrame(s, FiberApply(s, w, g, a), w, g) && Stays(s, FiberApply(s, w, g, a))
  {
    hide Removed;
  }

  /** Steps of close and of the callbacks that the hooks made. */
  lemma BodyFrame(s: State, w: nat, g: FiberId, a: FiberStep)
    requires Shape(s) && w < |s.workers| && FiberOk(s, g) && FiberEnabled(s, g, a)
    requires a.CloseFd? || a.RunWake? || a.RunTimeout? || a.RunCancel?
    ensures FiberFrame(s, FiberApply(s, w, g, a), w, g) && Stays(s, FiberApply(s, w, g, a))
  {
    hide CancelEvent, Closed, Scheduled;
  }

  lemma LeaveFrame(s: State, w: nat, g: FiberId, a: FiberStep)
    requires Shape(s) && w < |s.workers| && FiberOk(s, g) && FiberEnabled(s, g, a) && Departs(a)
    ensures FiberFrame(s, FiberApply(s, w, g, a), w, g) && Leaves(s, FiberApply(s, w, g, a), w, g)
  {
    hide AddEvent, CancelEvent, Closed, Grown, Scheduled, MayAdd, Removed;
  }

  lemma Frame(s: State, w: nat, g: FiberId, a: FiberStep)
    requires Shape(s) && w < |s.workers| && FiberOk(s, g) && FiberEnabled(s, g, a)
    ensures FiberFrame(s, FiberApply(s, w, g, a), w, g)
    ensures if Departs(a) then Leaves(s, FiberApply(s, w, g, a), w, g) else Stays(s, FiberApply(s, w, g, a))
  {
    if IsCode(a) { CodeFrame(s, w, g, a); } else { HookFrame(s, w, g, a); }
  }

  // ------------------------------------------------------------------ running fibers

  lemma FiberRunning(s: State, s': State, w: nat, g: FiberId, departs: bool)
    requires Shape(s) && OneRunner(s) && w < |s.workers| && FiberOk(s, g) && s.workers[w].pc == Running(g)
    requires FiberFrame(s, s', w, g)
    requires if departs then Leaves(s, s', w, g) else Stays(s, s')
    ensures OneRunner(s')
  {
    assert s.states[g] == RUNNING;
    forall v | 0 <= v < |s'.workers| && s'.workers[v].pc.Got?
      ensures ResumeAsserts(s', v)
    {
      assert s.workers[v].pc.Got?;
      assert ResumeAsserts(s, v);
    }
  }

  lemma TakeRunning(s: State, w: nat, i: nat)
    requires Shape(s) && Tokens(s) && OneRunner(s) && w < |s.workers| && RunEnabled(s, w, Take(i))
    ensures OneRunner(RunApply(s, w, Take(i)))
  {
    hide Sum;
    var s' := RunApply(s, w, Take(i));
    if s.io.tasks[i].fiber.Some? {
      QueuedIsAwaited(s, i);
    }
    forall v | 0 <= v < |s'.workers| && s'.workers[v].pc.Got?
      ensures ResumeAsserts(s', v)
    {
      if v != w {
        assert s.workers[v].pc.Got?;
        assert ResumeAsserts(s, v);
      }
    }
  }

  lemma ResumeRunning(s: State, w: nat)
    requires Shape(s) && Tokens(s) && OneRunner(s) && w < |s.workers| && RunEnabled(s, w, Resume)
    ensures OneRunner(ResumeTask(s, w))
  {
    hide Sum;
    var s' := ResumeTask(s, w);
    var t := s.workers[w].pc.task;
    assert ResumeAsserts(s, w);
    forall v | 0 <= v < |s'.workers| && s'.workers[v].pc.Got?
      ensures ResumeAsserts(s', v)
    {
      assert s.workers[v].pc.Got?;
      assert ResumeAsserts(s, v);
      if t.fiber.Some? && s.workers[v].pc.task.fiber.Some? {
        GotIsUnique(s, v, w);
      }
    }
  }

  /** Steps that only move worker `w` between program points where it runs and holds no fiber. */
  lemma MoveRunning(s: State, s': State, w: nat)
    requires OneRunner(s) && w < |s.workers| && s'.states == s.states && s'.progs == s.progs
    requires |s'.workers| == |s.workers| && !s'.workers[w].pc.Running? && !s'.workers[w].pc.Got?
    requires forall v :: 0 <= v < |s.workers| && v != w ==> s'.workers[v] == s.workers[v]
    ensures OneRunner(s')
  {
    forall v | 0 <= v < |s'.workers| && s'.workers[v].pc.Got?
      ensures ResumeAsserts(s', v)
    {
      assert s.workers[v].pc.Got?;
      assert ResumeAsserts(s, v);
    }
  }

  // ------------------------------------------------------------------ books and lost fibers

  lemma FiberBooks(s: State, s': State, w: nat, g: FiberId)
    requires Shape(s) && Books(s) && w < |s.workers| && FiberOk(s, g) && FiberFrame(s, s', w, g)
    ensures Books(s')
  {
  }

  lemma ResumeBooks(s: State, w: nat)
    requires Shape(s) && Books(s) && Tokens(s) && w < |s.workers| && RunEnabled(s, w, Resume)
    ensures Books(ResumeTask(s, w))
  {
    if s.workers[w].pc.task.fiber.Some? { GotIsAwaited(s, w); }
  }

  /** Only an awaited fiber can be dropped by DelEvent. */
  lemma DroppedAwaited(s: State, op: IoOp, f: FiberId)
    requires Tokens(s) && f in Dropped(s.io, op)
    ensures Awaited(s, f)
  {
    assert OneHolder(s, f);
    SumAtLeast(s.io.contexts, op.fd, InContext(f));
    assert TaskHolds(s.io.contexts[op.fd].Ctx(op.e).Wake(), f) >= 1;
  }

  lemma FiberLost(s: State, w: nat, g: FiberId, a: FiberStep)
    requires Shape(s) && Tokens(s) && LostWait(s)
    requires w < |s.workers| && FiberOk(s, g) && FiberEnabled(s, g, a)
    ensures LostWait(FiberApply(s, w, g, a))
  {
    Frame(s, w, g, a);
    var s' := FiberApply(s, w, g, a);
    forall f | f in s'.lost
      ensures f < |s'.progs| && Waits(s'.progs[f])
    {
      if f !in s.lost {
        LostGrows(s, w, g, a, f);
      }
    }
  }

  lemma LostGrows(s: State, w: nat, g: FiberId, a: FiberStep, f: FiberId)
    requires Tokens(s) && w < |s.workers| && FiberOk(s, g) && FiberEnabled(s, g, a)
    requires f !in s.lost && f in FiberApply(s, w, g, a).lost
    ensures Awaited(s, f)
  {
    assert a.CodeIo?;
    DroppedAwaited(s, a.op, f);
  }

  lemma ResumeLost(s: State, w: nat)
    requires Shape(s) && Tokens(s) && LostWait(s) && w < |s.workers| && RunEnabled(s, w, Resume)
    ensures LostWait(ResumeTask(s, w))
  {
    if s.workers[w].pc.task.fiber.Some? { GotIsAwaited(s, w); }
  }

  // ------------------------------------------------------------------ timers

  /** Old timers keep their place; at most one new one appears, under a fresh name. */
  ghost predicate TimerFrame(s: State, s': State) {
    && s.nextTimer <= s'.nextTimer
    && (forall t :: t in s'.timers ==>
          t in s.timers || (t.id == s.nextTimer < s'.nextTimer && (t.recurring ==> t.cb.UserCb?)))
  }

  predicate Timed(p: Prog) { (p.IoArm? || p.IoWait? || p.IoWoken?) && p.timer.Some? }

  /** A fiber's timeout timer is the one it had, or the new one. */
  ghost predicate TimeoutFrame(s: State, s': State, g: FiberId)
    requires g < |s.progs|
  {
    forall p :: p in s'.progs && Timed(p) ==>
      || p in s.progs
      || (Timed(s.progs[g]) && p.timer == s.progs[g].timer)
      || (p.timer.value == s.nextTimer < s'.nextTimer
          && forall t :: t in s'.timers && t.id == s.nextTimer ==> t in s.timers || t.cb.TimeoutCb?)
  }

  lemma TimerFrameKeeps(s: State, s': State, g: FiberId)
    requires TimerKinds(s) && g < |s.progs| && TimerFrame(s, s') && TimeoutFrame(s, s', g)
    ensures TimerKinds(s')
  {
    assert s.progs[g] in s.progs;
    forall p | p in s'.progs && Timed(p)
      ensures p.timer.value < s'.nextTimer
      ensures forall t :: t in s'.timers && t.id == p.timer.value ==> t.cb.TimeoutCb?
    {
    }
  }

  lemma ArmFrame(s: State, pos: nat, cb: Callback, recurring: bool)
    requires pos <= |s.timers| && (recurring ==> cb.UserCb?)
    ensures TimerFrame(s, Arm(s, pos, cb, recurring))
    ensures forall t :: t in Arm(s, pos, cb, recurring).timers ==> t in s.timers || t.cb == cb
  {
  }

  /** A timer call of the application touches no timeout timer. */
  lemma TimerOpKinds(s: State, op: TimerOp)
    requires TimerKinds(s) && TimerOpEnabled(s.timers, op)
    ensures TimerKinds(TimerOpApply(s, op))
  {
    var s' := TimerOpApply(s, op);
    if op.OpArm? { ArmFrame(s, op.pos, UserCb(op.id), op.recurring); }
    assert TimerFrame(s, s') by {
      if op.OpMove? { forall t | t in s'.timers ensures t in s.timers {} }
    }
    forall p | p in s'.progs && Timed(p)
      ensures p.timer.value < s'.nextTimer
      ensures forall t :: t in s'.timers && t.id == p.timer.value ==> t.cb.TimeoutCb?
    {
      assert p in s.progs;
    }
  }

  lemma CodeTimers(s: State, w: nat, g: FiberId, a: FiberStep)
    requires Shape(s) && TimerKinds(s) && w < |s.workers| && FiberOk(s, g) && FiberEnabled(s, g, a) && IsCode(a)
    ensures TimerKinds(FiberApply(s, w, g, a))
  {
    hide AddEvent, DelEvent, CancelEvent, CancelAll, MayAdd, Scheduled, Dropped;
    var s' := FiberApply(s, w, g, a);
    if a.CodeTimer? && a.top.OpMove? {
      forall t | t in s'.timers ensures t in s.timers {}
    }
    if a.SleepCommit? { ArmFrame(s, a.pos, WakeCb(g), false); }
    if a.CodeTimer? && a.top.OpArm? { ArmFrame(s, a.top.pos, UserCb(a.top.id), a.top.recurring); }
    if a.IoBegin? && a.at.Some? { ArmFrame(s, a.at.value, TimeoutCb(|s.infos|, a.fd, a.e), false); }
    assert TimerFrame(s, s');
    assert TimeoutFrame(s, s', g);
    TimerFrameKeeps(s, s', g);
  }

  lemma HookTimers(s: State, w: nat, g: FiberId, a: FiberStep)
    requires Shape(s) && TimerKinds(s) && w < |s.workers| && FiberOk(s, g) && FiberEnabled(s, g, a) && !IsCode(a)
    ensures TimerKinds(FiberApply(s, w, g, a))
  {
    hide AddEvent, CancelEvent, MayAdd, Closed, Scheduled;
    var s' := FiberApply(s, w, g, a);
    if a.IoRetry? && a.at.Some? {
      ArmFrame(s, a.at.value, TimeoutCb(s.progs[g].info, s.progs[g].fd, s.progs[g].e), false);
    }
    assert TimerFrame(s, s');
    assert TimeoutFrame(s, s', g);
    TimerFrameKeeps(s, s', g);
  }

  lemma {:induction false} RecurringIn(ts: seq<Timer>, t: Timer)
    requires t in Recurring(ts)
    ensures t in ts
  {
    if ts != [] {
      var n := |ts| - 1;
      if t in Recurring(ts[..n]) { RecurringIn(ts[..n], t); }
    }
  }

  lemma ExpireTimers(s: State, w: nat, k: nat, after: seq<Timer>)
    requires TimerKinds(s) && w < |s.workers| && IdleEnabled(s, w, Expire(k, after))
    ensures TimerKinds(IdleApply(s, w, Expire(k, after)))
  {
    forall t | t in after
      ensures t in s.timers
    {
      assert t in multiset(after);
      assert t in s.timers[k..] || t in Recurring(s.timers[..k]);
      if t in Recurring(s.timers[..k]) { RecurringIn(s.timers[..k], t); }
    }
  }

  lemma ResumeTimers(s: State, w: nat)
    requires Shape(s) && TimerKinds(s) && w < |s.workers| && RunEnabled(s, w, Resume)
    ensures TimerKinds(ResumeTask(s, w))
  {
    var s' := ResumeTask(s, w);
    var t := s.workers[w].pc.task;
    forall p | p in s'.progs && Timed(p)
      ensures p in s.progs || (t.fiber.Some? && Timed(s.progs[t.fiber.value]) &&
              p.timer == s.progs[t.fiber.value].timer)
    {
    }
    if t.fiber.Some? { assert s.progs[t.fiber.value] in s.progs; }
  }
}
