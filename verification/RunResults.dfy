/** What the invariant says about runs of the runtime. */
module RunResults {
  import opened Sums
  import opened Tasks
  import opened IoManager
  import opened Protocol
  import opened WakeTokens
  import opened WakeSteps
  import opened WakeRuns
  import opened RunInvariants

  /** In every reachable state a fiber suspended or committed to suspend has exactly one wake-up source,
      unless DelEvent removed its registration, and every other fiber has none. */
  lemma OneWakeSource(s0: State, acts: seq<Action>, f: FiberId)
    requires Init(s0) && Legal(s0, acts)
    ensures
      var s := After(s0, acts);
      && (Holders(s, f) == 1 <==> f < |s.progs| && Waits(s.progs[f]) && f !in s.lost)
      && (Holders(s, f) == 0 <==> f >= |s.progs| || !Waits(s.progs[f]) || f in s.lost)
  {
    EveryRunKeepsInv(s0, acts);
    assert OneHolder(After(s0, acts), f);
  }

  /** The assertion of Resume never fails, and no two workers ever run or hold the same fiber. */
  lemma ResumeNeverAsserts(s0: State, acts: seq<Action>, v: nat, w: nat)
    requires Init(s0) && Legal(s0, acts)
    requires v < |After(s0, acts).workers| && w < |After(s0, acts).workers|
    ensures
      var s := After(s0, acts);
      && (s.workers[w].pc.Got? ==> ResumeAsserts(s, w))
      && (v != w && s.workers[v].pc.Running? && s.workers[w].pc.Running? ==>
            s.workers[v].pc.fiber != s.workers[w].pc.fiber)
      && (v != w && s.workers[v].pc.Got? && s.workers[w].pc.Got? && s.workers[w].pc.task.fiber.Some? ==>
            s.workers[v].pc.task.fiber != s.workers[w].pc.task.fiber)
  {
    EveryRunKeepsInv(s0, acts);
    var s := After(s0, acts);
    if v != w && s.workers[v].pc.Got? && s.workers[w].pc.Got?
       && s.workers[v].pc.task.fiber.Some? && s.workers[w].pc.task.fiber.Some? {
      GotIsUnique(s, v, w);
    }
  }

  /** A fiber is dispatched exactly once for every suspension it has left, and READY means suspended. */
  lemma OneDispatchPerSuspension(s0: State, acts: seq<Action>, f: FiberId)
    requires Init(s0) && Legal(s0, acts) && f < |After(s0, acts).progs|
    ensures
      var s := After(s0, acts);
      && |s.states| == |s.progs| == |s.commits| == |s.dispatches|
      && s.commits[f] == s.dispatches[f] + (if Waits(s.progs[f]) then 1 else 0)
      && (s.states[f] == READY ==> Waits(s.progs[f]))
      && (s.states[f] == TERM ==> s.commits[f] == s.dispatches[f])
  {
    EveryRunKeepsInv(s0, acts);
  }

  /** pending_event_count_ is the number of registered events and never underflows; a bit is set exactly
      when its context is in use; what was added was triggered, deleted or is still pending. */
  lemma LedgerInEveryRun(s0: State, acts: seq<Action>)
    requires Init(s0) && Legal(s0, acts)
    ensures
      var io := After(s0, acts).io;
      && io.pending == Sum(io.contexts, Bits) >= 0
      && io.adds == io.triggers + io.deletes + io.pending
      && (forall fd :: 0 <= fd < |io.contexts| ==> io.contexts[fd].Ok())
  {
    EveryRunKeepsInv(s0, acts);
  }

  /** The kernel's interest list is the registered events on a descriptor if and only if it was not closed while an
      event was registered on it; one that was has its bits set for ever and no entry in the kernel. */
  lemma KernelInEveryRun(s0: State, acts: seq<Action>, fd: nat)
    requires Init(s0) && Legal(s0, acts)
    ensures
      var s := After(s0, acts);
      && (AgreesOn(s.io, fd) <==> fd !in s.clobbered)
      && (fd in s.clobbered ==> Dead(s.io, fd))
  {
    EveryRunKeepsInv(s0, acts);
    assert InStep(After(s0, acts).io, fd, After(s0, acts).clobbered);
  }

  lemma ClobberedStep(s: State, a: Action)
    requires Enabled(s, a)
    ensures Apply(s, a).clobbered == if Closes(s, a) then Left(s.io, ClosedFd(s, a), s.clobbered) else s.clobbered
  {
    hide AddEvent, DelEvent, CancelEvent, CancelAll, HandleReady, Closed, Grown, Scheduled, MayAdd, Removed, Left;
  }

  predicate Closes(s: State, a: Action) {
    a.OnFiber? && a.step.CloseFd? && a.w < |s.workers| && s.workers[a.w].pc.Running?
    && s.workers[a.w].pc.fiber < |s.progs| && s.progs[s.workers[a.w].pc.fiber].CloseNext?
  }

  function ClosedFd(s: State, a: Action): nat
    requires Closes(s, a)
  {
    s.progs[s.workers[a.w].pc.fiber].fd
  }

  /** The kernel and the contexts part on a descriptor in a step if and only if the step closes it while an event is
      registered on it. They never meet again. */
  lemma LosesAgreement(s: State, a: Action, fd: nat)
    requires Inv(s) && Enabled(s, a)
    ensures
      var s' := Apply(s, a);
      && (AgreesOn(s.io, fd) && !AgreesOn(s'.io, fd) <==>
            AgreesOn(s.io, fd) && Closes(s, a) && ClosedFd(s, a) == fd && !s.io.Events(fd).None())
      && (!AgreesOn(s.io, fd) ==> !AgreesOn(s'.io, fd))
  {
    hide Apply, Enabled, AgreesOn, Tokens, Kinds, Placed, IdleShape, OneRunner, TimerKinds, Books, Counters, Ledger;
    Step(s, a);
    ClobberedStep(s, a);
    DeadDisagrees(s, fd);
    DeadDisagrees(Apply(s, a), fd);
  }

  lemma DeadDisagrees(s: State, fd: nat)
    requires KernelAgrees(s.io, s.clobbered)
    ensures AgreesOn(s.io, fd) <==> fd !in s.clobbered
  {
    assert InStep(s.io, fd, s.clobbered);
  }

  /** active_thread_count_ and idle_thread_count_ count the workers in those phases. */
  lemma CountersInEveryRun(s0: State, acts: seq<Action>)
    requires Init(s0) && Legal(s0, acts)
    ensures
      var s := After(s0, acts);
      s.active == Sum(s.workers, InFlight) && s.idle == Sum(s.workers, InIdle)
  {
    EveryRunKeepsInv(s0, acts);
  }

  // ------------------------------------------------------------------ DelEvent strands, nothing else does

  predicate DeletesEvent(a: Action) {
    || (a.OnFiber? && a.step.CodeIo? && a.step.op.OpDel?)
    || (a.OutsideIo? && a.op.OpDel?)
  }

  function Deletion(a: Action): IoOp
    requires DeletesEvent(a)
  {
    if a.OnFiber? then a.step.op else a.op
  }

  /** The dropped set grows only by a DelEvent, and exactly by the fiber whose registration it removes. */
  lemma LostStep(s: State, a: Action)
    requires Enabled(s, a)
    ensures Apply(s, a).lost == s.lost + if DeletesEvent(a) then Dropped(s.io, Deletion(a)) else {}
  {
    hide AddEvent, DelEvent, CancelEvent, CancelAll, HandleReady, Closed, Grown, Scheduled, MayAdd, Removed;
  }

  /** A DelEvent that takes the registration of `f` away: the event is registered and held by `f`, epoll_ctl does not
      fail, and the descriptor was not closed while registered. */
  ghost predicate Strands(s: State, a: Action, f: FiberId) {
    && DeletesEvent(a)
    && var op := Deletion(a);
       && s.io.Registered(op.fd, op.e) && !op.fail && op.fd !in s.clobbered
       && f in Wakes(s.io.contexts[op.fd].Ctx(op.e).Wake())
  }

  lemma DroppedExactly(s: State, a: Action, f: FiberId)
    requires KernelAgrees(s.io, s.clobbered) && DeletesEvent(a)
    ensures f in Dropped(s.io, Deletion(a)) <==> Strands(s, a, f)
  {
    var op := Deletion(a);
    hide DelEvent;
    DelEventKernel(s.io, op.fd, op.e, op.fail, s.clobbered);
    DelFailsDead(s, op);
  }

  lemma DelFailsDead(s: State, op: IoOp)
    requires KernelAgrees(s.io, s.clobbered) && op.OpDel?
    ensures DelEvent(s.io, op.fd, op.e, op.fail).1 ==> op.fd !in s.clobbered && s.io.Registered(op.fd, op.e)
  {
    assert InStep(s.io, op.fd, s.clobbered);
  }

  /** A suspended fiber loses its only wake source in a step if and only if the step is a DelEvent that removes its
      registration. */
  lemma LosesWakeSource(s: State, a: Action, f: FiberId)
    requires Inv(s) && Enabled(s, a)
    ensures
      var s' := Apply(s, a);
      Holders(s, f) == 1 && f < |s'.progs| && Waits(s'.progs[f]) && Holders(s', f) == 0 <==> Strands(s, a, f)
  {
    hide Apply, Enabled, Holders, Dropped, Kinds, Placed, IdleShape, OneRunner, TimerKinds, Books, Counters, Strands;
    Step(s, a);
    LostStep(s, a);
    assert OneHolder(s, f) && OneHolder(Apply(s, a), f);
    StrandsDeletes(s, a, f);
    if DeletesEvent(a) {
      DroppedExactly(s, a, f);
      if f in Dropped(s.io, Deletion(a)) {
        DroppedIsAwaited(s, a, f);
      }
    }
  }

  lemma StrandsDeletes(s: State, a: Action, f: FiberId)
    ensures Strands(s, a, f) ==> DeletesEvent(a)
  {
  }

  lemma DroppedIsAwaited(s: State, a: Action, f: FiberId)
    requires Inv(s) && Enabled(s, a) && DeletesEvent(a) && f in Dropped(s.io, Deletion(a))
    ensures Awaited(s, f)
  {
    hide Dropped, Ledger, KernelAgrees;
    DroppedAwaited(s, Deletion(a), f);
  }

  /** No step of the run is a DelEvent that takes a fiber's registration away. */
  ghost predicate NoneStrands(s0: State, acts: seq<Action>)
    requires Legal(s0, acts)
    decreases |acts|
  {
    acts == [] ||
    (var n := |acts| - 1;
     NoneStrands(s0, acts[..n]) && forall f: FiberId :: !Strands(After(s0, acts[..n]), acts[n], f))
  }

  /** In every run: every suspended fiber has a wake source if and only if no DelEvent of the run took one away. */
  lemma AllHeldExactly(s0: State, acts: seq<Action>)
    requires Init(s0) && Legal(s0, acts)
    ensures
      var s := After(s0, acts);
      (forall f :: 0 <= f < |s.progs| && Waits(s.progs[f]) ==> Holders(s, f) == 1) <==> NoneStrands(s0, acts)
  {
    hide Holders, Ledger, KernelAgrees, OneRunner, Placed, TimerKinds, Books, Counters, Kinds, IdleShape, Legal, After;
    EveryRunKeepsInv(s0, acts);
    LostExactly(s0, acts);
    var s := After(s0, acts);
    forall f | 0 <= f < |s.progs| && Waits(s.progs[f])
      ensures Holders(s, f) == if f in s.lost then 0 else 1
    {
      assert OneHolder(s, f);
    }
    if s.lost != {} {
      var f :| f in s.lost;
      assert f < |s.progs| && Waits(s.progs[f]);
    }
  }

  lemma {:induction false} LostExactly(s0: State, acts: seq<Action>)
    requires Init(s0) && Legal(s0, acts)
    ensures After(s0, acts).lost == {} <==> NoneStrands(s0, acts)
    decreases |acts|
  {
    if acts != [] {
      hide Apply, Enabled, Strands, Init, Dropped;
      var n := |acts| - 1;
      LostExactly(s0, acts[..n]);
      EveryRunKeepsInv(s0, acts[..n]);
      LostGrowsExactly(After(s0, acts[..n]), acts[n]);
    }
  }

  lemma LostGrowsExactly(s: State, a: Action)
    requires KernelAgrees(s.io, s.clobbered) && Enabled(s, a)
    ensures Apply(s, a).lost == {} <==> s.lost == {} && forall f: FiberId :: !Strands(s, a, f)
  {
    hide Apply, Enabled, Strands, Dropped, KernelAgrees;
    LostStep(s, a);
    forall f: FiberId
      ensures Strands(s, a, f) <==> DeletesEvent(a) && f in Dropped(s.io, Deletion(a))
    {
      StrandsDeletes(s, a, f);
      if DeletesEvent(a) { DroppedExactly(s, a, f); }
    }
    if DeletesEvent(a) && Dropped(s.io, Deletion(a)) != {} {
      var f :| f in Dropped(s.io, Deletion(a));
      assert f in Apply(s, a).lost && Strands(s, a, f);
    }
  }

  /** A fiber dropped by DelEvent is never dispatched again, whatever happens later. */
  lemma {:induction false} LostStaysSuspended(s0: State, acts: seq<Action>, k: nat, f: FiberId)
    requires Init(s0) && Legal(s0, acts) && k <= |acts| && Legal(s0, acts[..k])
    requires f in After(s0, acts[..k]).lost
    ensures
      var s, t := After(s0, acts[..k]), After(s0, acts);
      && f in t.lost && f < |s.dispatches| && f < |t.dispatches| && t.dispatches[f] == s.dispatches[f]
    decreases |acts|
  {
    hide Enabled, Apply, Init, Ledger, KernelAgrees, Tokens, OneRunner, Placed, TimerKinds, Counters;
    EveryRunKeepsInv(s0, acts[..k]);
    if k == |acts| {
      assert acts[..k] == acts;
    } else {
      var n := |acts| - 1;
      assert acts[..n][..k] == acts[..k];
      LostStaysSuspended(s0, acts[..n], k, f);
      EveryRunKeepsInv(s0, acts[..n]);
      LostStep(After(s0, acts[..n]), acts[n]);
      LostNotDispatched(After(s0, acts[..n]), acts[n], f);
    }
  }

  lemma LostNotDispatched(s: State, a: Action, f: FiberId)
    requires Inv(s) && Enabled(s, a) && f in s.lost
    ensures f < |s.dispatches| && f < |Apply(s, a).dispatches| && Apply(s, a).dispatches[f] == s.dispatches[f]
  {
    hide Sum, AddEvent, DelEvent, CancelEvent, CancelAll, HandleReady, Closed, Scheduled, MayAdd, Removed, Ledger;
    match a
    case OnRun(w, r) =>
      if r.Resume? && s.workers[w].pc.task.fiber.Some? { GotIsAwaited(s, w); }
    case OnFiber(w, st) => Frame(s, w, s.workers[w].pc.fiber, st);
    case OnIdle(w, i) => IdleFrame(s, w, i);
    case _ =>
  }

  // ------------------------------------------------------------------ what application code must not do

  /** Scheduling a fiber by hand adds a wake source: the fiber is then suspended with exactly one if and only if
      DelEvent had stranded it. For any other fiber there are two, or one for a fiber that is not suspended. */
  lemma ForeignSchedule(s: State, f: FiberId)
    requires Inv(s) && f < |s.progs|
    ensures
      var s' := Enqueue(s, FiberTask(f));
      && Holders(s', f) == (if Waits(s.progs[f]) && f !in s.lost then 2 else 1)
      && (Waits(s'.progs[f]) && Holders(s', f) == 1 <==> f in s.lost)
      && (forall g: FiberId :: g != f ==> Holders(s', g) == Holders(s, g))
  {
    hide Sum, Ledger, KernelAgrees, OneRunner, Placed, TimerKinds, Books, Counters, Kinds, IdleShape;
    assert OneHolder(s, f);
    EnqueueHolders(s.io, FiberTask(f), f);
    forall g: FiberId | g != f
      ensures Holders(Enqueue(s, FiberTask(f)), g) == Holders(s, g)
    {
      EnqueueHolders(s.io, FiberTask(f), g);
    }
  }

  /** A fiber that yields has a wake source afterwards if and only if it had committed to suspend, and was not stranded
      meanwhile. */
  lemma YieldNeedsCommit(s: State, w: nat, f: FiberId)
    requires Inv(s) && w < |s.workers| && s.workers[w].pc == Running(f) && FiberOk(s, f)
    ensures
      var s' := Leave(s, w, f, false);
      && s'.states[f] == READY && Holders(s', f) <= 1
      && (Holders(s', f) == 1 <==> Waits(s.progs[f]) && f !in s.lost)
  {
    hide Sum, Ledger, KernelAgrees, OneRunner, Placed, TimerKinds, Books, Counters, Kinds, IdleShape;
    assert OneHolder(s, f);
    PcHolders(s, w, Ran, f);
  }

  // ------------------------------------------------------------------ one worker

  /** A call from outside that the only worker cannot miss: nothing after Stop; and timers and events not between its
      reads of the timer set and of the counters. */
  predicate OnTime(s: State, a: Action) {
    && (a.Submit? || a.SubmitFiber? || a.OutsideTimer? || a.OutsideIo? ==> !s.stopping)
    && (a.OutsideTimer? || a.OutsideIo? ==>
          s.workers != [] && s.workers[0].pc != CheckPending && s.workers[0].pc != CheckBase)
  }

  ghost predicate NoLateSubmit(s0: State, acts: seq<Action>)
    requires Legal(s0, acts)
    decreases |acts|
  {
    acts == [] ||
    (var n := |acts| - 1;
     NoLateSubmit(s0, acts[..n]) && OnTime(After(s0, acts[..n]), acts[n]))
  }

  /** With one worker the three reads of Stopping(timeout) are one snapshot: nobody else acts in between. */
  ghost predicate Snapshot(s: State) {
    && |s.workers| == 1
    && var wk := s.workers[0];
       && (wk.pc == CheckPending || wk.pc == CheckBase || wk.idleTerm ==> s.timers == [])
       && (wk.pc == CheckBase || wk.idleTerm ==> s.io.pending == 0)
       && (wk.idleTerm ==> Stopped(s) && (wk.pc == IdleReturned || wk.pc == Fetching || wk.pc == Exited))
       && (wk.pc == Exited ==> wk.idleTerm)
  }

  lemma SnapshotStep(s: State, a: Action)
    requires Snapshot(s) && Enabled(s, a)
    requires OnTime(s, a)
    ensures Snapshot(Apply(s, a))
  {
    match a
    case OnRun(w, r) => SnapshotRun(s, w, r);
    case OnIdle(w, i) => SnapshotIdle(s, w, i);
    case OnFiber(w, st) => FiberKeepsWorker(s, w, s.workers[w].pc.fiber, st);
    case _ =>
  }

  lemma SnapshotRun(s: State, w: nat, r: RunStep)
    requires Snapshot(s) && w < |s.workers| && RunEnabled(s, w, r)
    ensures Snapshot(RunApply(s, w, r))
  {
  }

  lemma SnapshotIdle(s: State, w: nat, i: IdleStep)
    requires Snapshot(s) && w < |s.workers| && IdleEnabled(s, w, i)
    ensures Snapshot(IdleApply(s, w, i))
  {
    hide HandleReady, ReadyAsserts, Scheduled;
  }

  lemma FiberKeepsWorker(s: State, w: nat, g: FiberId, a: FiberStep)
    requires w < |s.workers| && FiberOk(s, g) && FiberEnabled(s, g, a)
    ensures
      var s' := FiberApply(s, w, g, a);
      s'.workers == if Departs(a) then s.workers[w := s.workers[w].(pc := Ran)] else s.workers
  {
    hide AddEvent, DelEvent, CancelEvent, CancelAll, HandleReady, Closed, Grown, Scheduled, MayAdd, Removed;
  }

  lemma {:induction false} OneWorkerSnapshot(s0: State, acts: seq<Action>)
    requires Init(s0) && Legal(s0, acts) && NoLateSubmit(s0, acts) && |s0.workers| == 1
    ensures Snapshot(After(s0, acts))
    decreases |acts|
  {
    if acts != [] {
      var n := |acts| - 1;
      OneWorkerSnapshot(s0, acts[..n]);
      SnapshotStep(After(s0, acts[..n]), acts[n]);
    }
  }

  lemma NoEventNoHolder(io: Io, f: FiberId)
    requires Ledger(io) && io.pending == 0
    ensures forall fd: nat :: io.Events(fd).None()
    ensures Sum(io.contexts, InContext(f)) == 0
  {
    hide Sum;
    SumZero(io.contexts, Bits);
    forall c | c in io.contexts
      ensures InContext(f)(c) == 0
    {
      assert Bits(c) == 0 && c.Ok();
    }
    SumZero(io.contexts, InContext(f));
    forall fd: nat | fd < |io.contexts| ensures io.Events(fd).None() { assert Bits(io.contexts[fd]) == 0; }
  }

  /** A one-worker IO manager leaves Run only when the queue is empty, no timer is armed, no event is registered, and
      exactly the fibers that were not stranded by DelEvent have finished; so all have if and only if no DelEvent of the
      run took a fiber's registration away. */
  lemma OneWorkerLeavesNothing(s0: State, acts: seq<Action>)
    requires Init(s0) && Legal(s0, acts) && NoLateSubmit(s0, acts) && |s0.workers| == 1
    requires |After(s0, acts).workers| == 1 && After(s0, acts).workers[0].pc == Exited
    ensures
      var s := After(s0, acts);
      && s.io.tasks == [] && s.timers == [] && s.active == 0
      && (forall fd: nat :: s.io.Events(fd).None())
      && |s.states| == |s.progs|
      && (forall f :: 0 <= f < |s.states| ==> (s.states[f] == TERM <==> f !in s.lost))
      && ((forall f :: 0 <= f < |s.states| ==> s.states[f] == TERM) <==> NoneStrands(s0, acts))
  {
    hide Tokens, Ledger, KernelAgrees, OneRunner, TimerKinds, Books, Counters, Kinds, IdleShape, Legal, After;
    EveryRunKeepsInv(s0, acts);
    OneWorkerSnapshot(s0, acts);
    LostExactly(s0, acts);
    var s := After(s0, acts);
    NoEventNoHolder(s.io, 0);
    forall f | 0 <= f < |s.states|
      ensures s.states[f] == TERM <==> f !in s.lost
    {
      if f !in s.lost { NobodyLeft(s, f); }
    }
    if s.lost != {} {
      var f :| f in s.lost;
      assert s.states[f] != TERM;
    }
  }

  lemma NobodyLeft(s: State, f: FiberId)
    requires Shape(s) && Tokens(s) && Placed(s) && IdleShape(s) && Ledger(s.io) && Snapshot(s)
    requires s.workers[0].pc == Exited && f < |s.states| && f !in s.lost
    ensures s.states[f] == TERM
  {
    assert !RunBy(s, f);
    assert OneHolder(s, f);
    NoEventNoHolder(s.io, f);
    NoWorkerHolder(s, f);
    NoProgHolder(s, f);
    assert Holders(s, f) == 0;
  }

  lemma NoWorkerHolder(s: State, f: FiberId)
    requires IdleShape(s) && |s.workers| == 1 && s.workers[0].pc == Exited
    ensures Sum(s.workers, InWorker(f)) == 0
  {
    hide Sum;
    SumEmpty(InCb(f));
    SumZero(s.workers, InWorker(f));
  }

  /** Only a running fiber can be about to wake another. */
  lemma NoProgHolder(s: State, f: FiberId)
    requires Shape(s) && Placed(s) && |s.workers| == 1 && s.workers[0].pc == Exited
    ensures Sum(s.progs, InProg(f)) == 0
  {
    hide Sum;
    forall p | p in s.progs
      ensures InProg(f)(p) == 0
    {
      var g :| 0 <= g < |s.progs| && s.progs[g] == p;
      assert !RunBy(s, g);
    }
    SumZero(s.progs, InProg(f));
  }

  // ------------------------------------------------------------------ reports of epoll_wait

  /** epoll_wait reports a descriptor at most once. */
  ghost predicate EachOnce(reports: seq<Report>) {
    forall i, j :: 0 <= i < j < |reports| ==> reports[i].fd != reports[j].fd
  }

  ghost predicate ReportsOnce(acts: seq<Action>) {
    forall a :: a in acts && a.OnIdle? && a.idle.Wait? ==> EachOnce(a.idle.reports)
  }

  /** Code outside the workers adds events but does not remove any. */
  ghost predicate OutsideOnlyAdds(acts: seq<Action>) {
    forall a :: a in acts && a.OutsideIo? ==> a.op.OpAdd?
  }

  ghost predicate Registered(io: Io, r: Report) {
    (r.ready.readIn ==> io.Events(r.fd).read) && (r.ready.writeOut ==> io.Events(r.fd).write)
  }

  /** The only worker's reports are still about registered events. */
  ghost predicate Current(s: State) {
    && |s.workers| == 1 && EachOnce(s.workers[0].reports)
    && forall r :: r in s.workers[0].reports ==> Registered(s.io, r)
  }

  lemma ReadyElsewhere(io: Io, fd: nat, r: Ready, fail: bool, k: nat)
    requires ReadyAsserts(io, fd, r, fail) && k != fd
    ensures HandleReady(io, fd, r, fail).Events(k) == io.Events(k)
  {
    if Real(io, fd, r).Within(io.Events(fd)) {
      TriggerMaskEvents(io, fd, Real(io, fd, r));
    }
  }

  lemma CurrentWait(s: State, reports: seq<Report>)
    requires KernelAgrees(s.io, s.clobbered) && |s.workers| == 1
    requires IdleEnabled(s, 0, Wait(reports)) && EachOnce(reports)
    ensures Current(IdleApply(s, 0, Wait(reports)))
  {
    forall r | r in reports
      ensures Registered(s.io, r)
    {
      assert InStep(s.io, r.fd, s.clobbered);
    }
  }

  lemma CurrentHandle(s: State, fail: bool)
    requires Current(s) && IdleEnabled(s, 0, HandleReport(fail))
    ensures Current(IdleApply(s, 0, HandleReport(fail)))
  {
    hide HandleReady, ReadyAsserts;
    var reports := s.workers[0].reports;
    var first, rest := reports[0], reports[1..];
    var io' := HandleReady(s.io, first.fd, first.ready, fail);
    forall r | r in rest
      ensures Registered(io', r)
    {
      var i :| 0 <= i < |rest| && rest[i] == r;
      assert r == reports[i + 1] && r in reports;
      ReadyElsewhere(s.io, first.fd, first.ready, fail, r.fd);
    }
  }

  lemma CurrentIdle(s: State, i: IdleStep)
    requires Current(s) && KernelAgrees(s.io, s.clobbered) && IdleEnabled(s, 0, i) && (i.Wait? ==> EachOnce(i.reports))
    ensures Current(IdleApply(s, 0, i))
  {
    match i
    case Wait(reports) => CurrentWait(s, reports);
    case HandleReport(fail) => CurrentHandle(s, fail);
    case _ =>
  }

  lemma CurrentStep(s: State, a: Action)
    requires Current(s) && Inv(s) && Enabled(s, a)
    requires a.OnIdle? && a.idle.Wait? ==> EachOnce(a.idle.reports)
    requires a.OutsideIo? ==> a.op.OpAdd?
    ensures Current(Apply(s, a))
  {
    hide Tokens, Kinds, Placed, OneRunner, TimerKinds, Books, Counters,
         Ledger, KernelAgrees, RunApply, FiberApply, IdleApply;
    match a
    case OnIdle(w, i) => CurrentIdle(s, i);
    case OnRun(w, r) => RunKeepsReports(s, r);
    case OnFiber(w, st) => FiberKeepsWorker(s, w, s.workers[w].pc.fiber, st);
    case OutsideIo(op) => CurrentAdd(s, op);
    case OutsideTimer(op) => TimerOpFrame(s, op);
    case _ =>
  }

  lemma CurrentAdd(s: State, op: IoOp)
    requires Current(s) && Sized(s.io) && op.OpAdd? && IoOpEnabled(s.io, op)
    ensures Current(IoCall(s, op, 0))
  {
    GrownHasRoom(s.io.contexts, op.fd);
    forall r | r in s.workers[0].reports
      ensures Registered(IoCall(s, op, 0).io, r)
    {
      assert Registered(s.io, r);
    }
  }

  lemma RunKeepsReports(s: State, r: RunStep)
    requires |s.workers| == 1 && RunEnabled(s, 0, r)
    ensures var s' := RunApply(s, 0, r);
            |s'.workers| == 1 && s'.workers[0].reports == s.workers[0].reports && s'.io.contexts == s.io.contexts
  {
  }

  lemma {:induction false} CurrentInEveryRun(s0: State, acts: seq<Action>)
    requires Init(s0) && Legal(s0, acts) && |s0.workers| == 1 && ReportsOnce(acts) && OutsideOnlyAdds(acts)
    ensures Current(After(s0, acts))
    decreases |acts|
  {
    if acts != [] {
      var n := |acts| - 1;
      assert ReportsOnce(acts[..n]) && OutsideOnlyAdds(acts[..n]);
      CurrentInEveryRun(s0, acts[..n]);
      EveryRunKeepsInv(s0, acts[..n]);
      CurrentStep(After(s0, acts[..n]), acts[n]);
    }
  }

  /** With one worker the assertion in TriggerEvent never fails in the idle loop: whatever epoll_ctl does, every report
      that is due can be handled. */
  lemma OneWorkerNeverAsserts(s0: State, acts: seq<Action>, fail: bool)
    requires Init(s0) && Legal(s0, acts) && |s0.workers| == 1 && ReportsOnce(acts) && OutsideOnlyAdds(acts)
    ensures
      var s := After(s0, acts);
      && |s.workers| == 1
      && var wk := s.workers[0];
         && (wk.reports != [] ==> HandleChecked(s.io, wk.reports[0].fd, wk.reports[0].ready, fail).Some?)
         && (wk.pc == Delivering && wk.cbs == [] && wk.reports != [] ==> Enabled(s, OnIdle(0, HandleReport(fail))))
  {
    CurrentInEveryRun(s0, acts);
    var s := After(s0, acts);
    if s.workers[0].reports != [] {
      var r := s.workers[0].reports[0];
      assert r in s.workers[0].reports;
      assert Real(s.io, r.fd, r.ready).Within(s.io.Events(r.fd));
      AssertsExactly(s.io, r.fd, r.ready, fail);
    }
  }
}
