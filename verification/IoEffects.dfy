/** What each event call does, field by field: which registrations come and go, who is scheduled, and what stays. */
module IoEffects {
  import opened Sums
  import opened Tasks
  import opened IoManager

  /** The context of event `e` of a descriptor in the table. */
  function Slot(io: Io, fd: nat, e: Event): EventContext
    requires fd < |io.contexts|
  {
    match e case READ => io.contexts[fd].read case WRITE => io.contexts[fd].write
  }

  predicate Bit(io: Io, fd: nat, e: Event) {
    fd < |io.contexts| && match e case READ => io.contexts[fd].events.read case WRITE => io.contexts[fd].events.write
  }

  /** What is scheduled for a context: its callback, or else its fiber, on any thread. */
  function Scheduling(c: EventContext): Task {
    match c.cb case Some(cb) => Task(None, Some(cb), None) case None => Task(c.fiber, None, None)
  }

  predicate Known(c: EventContext) {
    c.Wake() == Scheduling(c) && !Scheduling(c).Empty()
  }

  /** The tasks of those events of `fd` that `gone` names, READ first. */
  function Gone(io: Io, fd: nat, read: bool, write: bool): seq<Task>
    requires read || write ==> fd < |io.contexts|
  {
    (if read then [Scheduling(io.contexts[fd].read)] else []) +
      (if write then [Scheduling(io.contexts[fd].write)] else [])
  }

  /** Nothing about the other descriptors changed. */
  ghost predicate OthersSame(io: Io, io': Io, fd: nat) {
    && |io.contexts| <= |io'.contexts|
    && (forall k :: 0 <= k < |io.contexts| && k != fd ==> io'.contexts[k] == io.contexts[k])
    && (forall k, e :: |io.contexts| <= k < |io'.contexts| && k != fd ==> !Bit(io', k, e))
    && (forall k: nat :: k != fd ==> (k in io'.kernel <==> k in io.kernel))
    && (forall k: nat :: k != fd && k in io.kernel && k in io'.kernel ==> io'.kernel[k] == io.kernel[k])
  }

  /** Event `e` of `fd` did not change. */
  ghost predicate EventSame(io: Io, io': Io, fd: nat, e: Event) {
    && (Bit(io', fd, e) <==> Bit(io, fd, e))
    && (fd < |io.contexts| && fd < |io'.contexts| ==> Slot(io', fd, e) == Slot(io, fd, e))
  }

  lemma ClosedOthers(io: Io, io1: Io, fd: nat)
    requires OthersSame(io, io1, fd)
    ensures OthersSame(io, Closed(io1, fd), fd)
  {
    var io' := Closed(io1, fd);
    assert forall k, e :: Bit(io', k, e) <==> Bit(io1, k, e);
    forall k: nat | k != fd
      ensures k in io'.kernel <==> k in io.kernel
      ensures k in io.kernel && k in io'.kernel ==> io'.kernel[k] == io.kernel[k]
    {
      assert k in io'.kernel <==> k in io1.kernel;
    }
  }

  function Other(e: Event): Event {
    match e case READ => WRITE case WRITE => READ
  }

  lemma BitIsRegistered(io: Io, fd: nat, e: Event)
    ensures Bit(io, fd, e) <==> io.Registered(fd, e)
  {
  }

  /** The table grows to 1.5 times the descriptor, and only when the descriptor is beyond it. */
  lemma GrownExactly(cs: seq<FdState>, fd: nat)
    ensures fd < |cs| ==> Grown(cs, fd) == cs
    ensures fd >= |cs| >= 2 ==> |Grown(cs, fd)| == fd + fd / 2
    ensures cs <= Grown(cs, fd)
  {
  }

  /** AddEvent: the event is registered for exactly the given holder, and nothing is scheduled. */
  lemma AddEventEffect(io: Io, fd: nat, e: Event, holder: EventContext, fail: bool, clobbered: set<nat>)
    requires KernelAgrees(io, clobbered) && Sized(io) && MayAdd(io, fd, e)
    ensures
      var (io', ok) := AddEvent(io, fd, e, holder, fail);
      && (ok <==> !fail && fd !in clobbered)
      && (ok ==> Bit(io', fd, e) && Slot(io', fd, e) == holder && io'.pending == io.pending + 1)
      && (!ok ==> !Bit(io', fd, e) && io'.kernel == io.kernel && io'.pending == io.pending)
      && EventSame(io, io', fd, Other(e)) && OthersSame(io, io', fd) && io'.tasks == io.tasks
  {
    GrownHasRoom(io.contexts, fd);
    assert InStep(io, fd, clobbered);
  }

  /** DelEvent: the event is gone, and nobody is scheduled. */
  lemma DelEventEffect(io: Io, fd: nat, e: Event, fail: bool, clobbered: set<nat>)
    requires KernelAgrees(io, clobbered)
    ensures
      var (io', ok) := DelEvent(io, fd, e, fail);
      && (ok <==> Bit(io, fd, e) && !fail && fd !in clobbered)
      && (ok ==> !Bit(io', fd, e) && io'.pending == io.pending - 1)
      && (!ok ==> io' == io)
      && EventSame(io, io', fd, Other(e)) && OthersSame(io, io', fd) && io'.tasks == io.tasks
  {
    assert InStep(io, fd, clobbered);
  }

  /** CancelEvent: the event is gone, and its holder is scheduled. */
  lemma CancelEventEffect(io: Io, fd: nat, e: Event, fail: bool, clobbered: set<nat>)
    requires KernelAgrees(io, clobbered) && Ledger(io)
    ensures
      var (io', ok) := CancelEvent(io, fd, e, fail);
      && (ok <==> Bit(io, fd, e) && !fail && fd !in clobbered)
      && (ok ==>
            && !Bit(io', fd, e) && io'.pending == io.pending - 1
            && io'.tasks == io.tasks + [Scheduling(Slot(io, fd, e))])
      && (!ok ==> io' == io)
      && EventSame(io, io', fd, Other(e)) && OthersSame(io, io', fd)
  {
    hide Ledger, Sum;
    assert InStep(io, fd, clobbered);
    if io.Registered(fd, e) {
      HeldContext(io, fd, e);
    }
  }

  lemma HeldContext(io: Io, fd: nat, e: Event)
    requires Ledger(io) && io.Registered(fd, e)
    ensures io.contexts[fd].Ctx(e) == Slot(io, fd, e) && Slot(io, fd, e).Held()
    ensures Known(Slot(io, fd, e))
  {
    assert io.contexts[fd].Ok();
  }

  /** CancelAll: nothing is registered on the descriptor any more, and the holders are scheduled, READ first. */
  lemma CancelAllEffect(io: Io, fd: nat, fail: bool, clobbered: set<nat>)
    requires KernelAgrees(io, clobbered) && Ledger(io)
    ensures
      var (io', ok) := CancelAll(io, fd, fail);
      && (ok <==> (Bit(io, fd, READ) || Bit(io, fd, WRITE)) && !fail && fd !in clobbered)
      && (ok ==> !Bit(io', fd, READ) && !Bit(io', fd, WRITE)
                 && io'.tasks == io.tasks + Gone(io, fd, Bit(io, fd, READ), Bit(io, fd, WRITE)))
      && (!ok ==> io' == io)
      && OthersSame(io, io', fd)
  {
    hide Ledger, Sum;
    assert InStep(io, fd, clobbered);
    if io.Registered(fd, READ) { HeldContext(io, fd, READ); }
    if io.Registered(fd, WRITE) { HeldContext(io, fd, WRITE); }
    TriggerMaskEffect(io, fd, io.Events(fd));
  }

  /** Triggering a set of events: exactly those go, and their holders are scheduled, READ first. */
  lemma TriggerMaskEffect(io: Io, fd: nat, m: Mask)
    requires m.Within(io.Events(fd))
    requires m.read ==> Known(io.contexts[fd].read)
    requires m.write ==> Known(io.contexts[fd].write)
    ensures
      var io' := TriggerMask(io, fd, m);
      && |io'.contexts| == |io.contexts| && io'.kernel == io.kernel
      && (forall k :: 0 <= k < |io.contexts| && k != fd ==> io'.contexts[k] == io.contexts[k])
      && (Bit(io', fd, READ) <==> Bit(io, fd, READ) && !m.read)
      && (Bit(io', fd, WRITE) <==> Bit(io, fd, WRITE) && !m.write)
      && io'.tasks == io.tasks + Gone(io, fd, m.read, m.write)
  {
  }

  /** A report of epoll_wait: an event goes if and only if it was registered and the report names it or says error or
      hang-up; the holders of those that go are scheduled, READ first. */
  lemma HandleReadyEffect(io: Io, fd: nat, r: Ready, clobbered: set<nat>)
    requires KernelAgrees(io, clobbered) && Ledger(io) && ReadyAsserts(io, fd, r, false) && fd !in clobbered
    ensures
      var io' := HandleReady(io, fd, r, false);
      && (Bit(io', fd, READ) <==> Bit(io, fd, READ) && !r.errHup && !r.readIn)
      && (Bit(io', fd, WRITE) <==> Bit(io, fd, WRITE) && !r.errHup && !r.writeOut)
      && io'.tasks == io.tasks + Gone(io, fd, Bit(io, fd, READ) && (r.errHup || r.readIn),
                                      Bit(io, fd, WRITE) && (r.errHup || r.writeOut))
      && OthersSame(io, io', fd)
  {
    hide Ledger, Sum, TriggerMask;
    assert InStep(io, fd, clobbered);
    if io.Registered(fd, READ) { HeldContext(io, fd, READ); }
    if io.Registered(fd, WRITE) { HeldContext(io, fd, WRITE); }
    var hit := Real(io, fd, r);
    if hit.Within(io.Events(fd)) {
      TriggerMaskEffect(io, fd, hit);
    }
  }

  /** When epoll_ctl fails the report is dropped. */
  lemma HandleReadyFails(io: Io, fd: nat, r: Ready)
    ensures ReadyAsserts(io, fd, r, true) && HandleReady(io, fd, r, true) == io
  {
  }

  /** The guard of the assertion, from the report: it fails exactly on a report that names an event that is not
      registered together with one that is, when epoll_ctl would have gone through. */
  lemma AssertsFromReport(io: Io, fd: nat, r: Ready, clobbered: set<nat>)
    requires KernelAgrees(io, clobbered)
    ensures ReadyAsserts(io, fd, r, false) <==>
      || fd in clobbered
      || ((r.readIn ==> Bit(io, fd, READ)) && (r.writeOut ==> Bit(io, fd, WRITE)))
      || !((Bit(io, fd, READ) && (r.errHup || r.readIn)) || (Bit(io, fd, WRITE) && (r.errHup || r.writeOut)))
  {
    assert InStep(io, fd, clobbered);
  }

  /** From AddEvent to the queue: what is scheduled when the event goes off is what was given to AddEvent, the
      callback if there is one and else the calling fiber. */
  lemma AddedIsScheduled(io: Io, fd: nat, e: Event, cb: Option<Callback>, cur: FiberId, sched: nat, clobbered: set<nat>)
    requires KernelAgrees(io, clobbered) && Ledger(io) && Sized(io) && MayAdd(io, fd, e) && fd !in clobbered
    ensures
      var io' := AddEvent(io, fd, e, Holder(sched, cb, cur), false).0;
      && Slot(io', fd, e).scheduler == Some(sched)
      && CancelEvent(io', fd, e, false).0.tasks ==
         io.tasks + [match cb case Some(c) => Task(None, Some(c), None) case None => Task(Some(cur), None, None)]
  {
    hide AddEvent, CancelEvent, Ledger, KernelAgrees;
    AddEventEffect(io, fd, e, Holder(sched, cb, cur), false, clobbered);
    AddEventLedger(io, fd, e, Holder(sched, cb, cur), false);
    AddEventKernel(io, fd, e, Holder(sched, cb, cur), false, clobbered);
    CancelEventEffect(AddEvent(io, fd, e, Holder(sched, cb, cur), false).0, fd, e, false, clobbered);
  }
}
