/** Event registration of the IO manager: one-shot per-descriptor contexts kept in step with the kernel's
    interest list. Each operation is given first as a function on a value `Io` (what one `fd_ctx->mutex`
    section does), with the ledger and kernel invariants; the class below performs it by mutation. */
module IoManager {
  import opened Sums
  import opened Tasks

  // ------------------------------------------------------------------ values

  /** EventContext: who is told when the event happens. */
  datatype EventContext = EventContext(scheduler: Option<nat>, fiber: Option<FiberId>, cb: Option<Callback>) {
    /** What TriggerEvent schedules. */
    function Wake(): Task {
      if cb.Some? then Task(None, cb, None) else Task(fiber, None, None)
    }

    /** Holds exactly one of callback and fiber. */
    predicate Held() {
      scheduler.Some? && (cb.Some? <==> fiber.None?)
    }
  }

  const EMPTY := EventContext(None, None, None)

  /** A set of events; READ | WRITE bits of the source. */
  datatype Mask = Mask(read: bool, write: bool) {
    predicate Has(e: Event) { if e == READ then read else write }
    predicate None() { !read && !write }
    function With(e: Event): Mask { if e == READ then Mask(true, write) else Mask(read, true) }
    function Without(e: Event): Mask { if e == READ then Mask(false, write) else Mask(read, false) }
    function And(m: Mask): Mask { Mask(read && m.read, write && m.write) }
    function Minus(m: Mask): Mask { Mask(read && !m.read, write && !m.write) }
    predicate Within(m: Mask) { (read ==> m.read) && (write ==> m.write) }
    function Count(): nat { (if read then 1 else 0) + (if write then 1 else 0) }
  }

  datatype FdState = FdState(read: EventContext, write: EventContext, events: Mask) {
    function Ctx(e: Event): EventContext { if e == READ then read else write }
    function SetCtx(e: Event, c: EventContext): FdState {
      if e == READ then this.(read := c) else this.(write := c)
    }
    function Clear(e: Event): FdState { SetCtx(e, EMPTY).(events := events.Without(e)) }
    /** A set bit has a held context, a clear bit an empty one. */
    predicate Ok() {
      && (if events.read then read.Held() else read == EMPTY)
      && (if events.write then write.Held() else write == EMPTY)
    }
  }

  const FRESH_FD := FdState(EMPTY, EMPTY, Mask(false, false))

  datatype Op = ADD | MOD | DEL

  /** `kernel` is the epoll interest list; `adds`, `triggers` and `deletes` count what has happened so far. */
  datatype Io = Io(
    contexts: seq<FdState>, pending: int, kernel: map<nat, Mask>, tasks: seq<Task>,
    adds: nat, triggers: nat, deletes: nat)
  {
    predicate Registered(fd: nat, e: Event) {
      fd < |contexts| && contexts[fd].events.Has(e)
    }
    function Events(fd: nat): Mask {
      if fd < |contexts| then contexts[fd].events else Mask(false, false)
    }
  }

  /** What epoll_wait reports for one descriptor. */
  datatype Ready = Ready(readIn: bool, writeOut: bool, errHup: bool)

  // ------------------------------------------------------------------ epoll_ctl

  /** ADD needs an absent descriptor, MOD and DEL a present one. */
  predicate CtlLegal(kernel: map<nat, Mask>, op: Op, fd: nat) {
    if op == ADD then fd !in kernel else fd in kernel
  }

  /** A call that is illegal, or that the environment fails, changes nothing. */
  predicate CtlOk(kernel: map<nat, Mask>, op: Op, fd: nat, fail: bool) {
    CtlLegal(kernel, op, fd) && !fail
  }

  function Ctl(kernel: map<nat, Mask>, op: Op, fd: nat, m: Mask): map<nat, Mask> {
    if op == DEL then map k | k in kernel && k != fd :: kernel[k] else kernel[fd := m]
  }

  // ------------------------------------------------------------------ operations on values

  /** ContextResize(fd * 1.5), done only when the table is too short. */
  function Grown(cs: seq<FdState>, fd: nat): seq<FdState> {
    if fd < |cs| || fd * 3 / 2 <= |cs| then cs else cs + seq(fd * 3 / 2 - |cs|, _ => FRESH_FD)
  }

  function AddOp(was: Mask): Op { if was.None() then ADD else MOD }
  function DropOp(left: Mask): Op { if left.None() then DEL else MOD }

  /** The context that AddEvent stores: the callback, or else the calling fiber. */
  function Holder(sched: nat, cb: Option<Callback>, cur: FiberId): EventContext {
    if cb.Some? then EventContext(Some(sched), None, cb) else EventContext(Some(sched), Some(cur), None)
  }

  /** The assertion at the head of AddEvent: the event is not registered already. */
  predicate MayAdd(io: Io, fd: nat, e: Event) {
    fd < |Grown(io.contexts, fd)| && !Grown(io.contexts, fd)[fd].events.Has(e)
  }

  function AddEvent(io: Io, fd: nat, e: Event, holder: EventContext, fail: bool): (Io, bool)
    requires MayAdd(io, fd, e)
  {
    var cs := Grown(io.contexts, fd);
    var c := cs[fd];
    var op := AddOp(c.events);
    if !CtlOk(io.kernel, op, fd, fail) then (io.(contexts := cs), false)
    else
      (io.(contexts := cs[fd := c.SetCtx(e, holder).(events := c.events.With(e))],
           kernel := Ctl(io.kernel, op, fd, c.events.With(e)),
           pending := io.pending + 1, adds := io.adds + 1), true)
  }

  function DelEvent(io: Io, fd: nat, e: Event, fail: bool): (Io, bool) {
    if !io.Registered(fd, e) then (io, false) else
      var c := io.contexts[fd];
      var left := c.events.Without(e);
      if !CtlOk(io.kernel, DropOp(left), fd, fail) then (io, false)
      else
        (io.(contexts := io.contexts[fd := c.Clear(e)],
             kernel := Ctl(io.kernel, DropOp(left), fd, left),
             pending := io.pending - 1, deletes := io.deletes + 1), true)
  }

  /** TriggerEvent, with the `--pending_event_count_` that always follows it. */
  function Trigger(io: Io, fd: nat, e: Event): Io
    requires io.Registered(fd, e)
  {
    var c := io.contexts[fd];
    io.(contexts := io.contexts[fd := c.Clear(e)],
        tasks := Scheduled(io.tasks, c.Ctx(e).Wake()),
        pending := io.pending - 1, triggers := io.triggers + 1)
  }

  function TriggerIf(io: Io, fd: nat, e: Event, b: bool): Io
    requires b ==> io.Registered(fd, e)
  {
    if b then Trigger(io, fd, e) else io
  }

  /** Both events of a mask, READ first. */
  function TriggerMask(io: Io, fd: nat, m: Mask): Io
    requires m.Within(io.Events(fd))
  {
    TriggerIf(TriggerIf(io, fd, READ, m.read), fd, WRITE, m.write)
  }

  function CancelEvent(io: Io, fd: nat, e: Event, fail: bool): (Io, bool) {
    if !io.Registered(fd, e) then (io, false) else
      var left := io.contexts[fd].events.Without(e);
      if !CtlOk(io.kernel, DropOp(left), fd, fail) then (io, false)
      else
        (Trigger(io, fd, e).(kernel := Ctl(io.kernel, DropOp(left), fd, left)), true)
  }

  function CancelAll(io: Io, fd: nat, fail: bool): (Io, bool) {
    if io.Events(fd).None() || !CtlOk(io.kernel, DEL, fd, fail) then (io, false)
    else
      (TriggerMask(io, fd, io.Events(fd)).(kernel := Ctl(io.kernel, DEL, fd, Mask(false, false))), true)
  }

  /** real_events of the idle loop: an error or hang-up counts for every registered event. */
  function Real(io: Io, fd: nat, r: Ready): Mask {
    var ev := io.Events(fd);
    Mask(r.readIn || (r.errHup && ev.read), r.writeOut || (r.errHup && ev.write))
  }

  /** The idle loop triggers the unmasked `real_events`, so an event that was reported but is no longer
      registered fails the assertion in TriggerEvent, unless none of the reported ones is registered. */
  predicate ReadyAsserts(io: Io, fd: nat, r: Ready, fail: bool) {
    var hit := Real(io, fd, r);
    var left := io.Events(fd).Minus(hit);
    !io.Events(fd).And(hit).None() && CtlOk(io.kernel, DropOp(left), fd, fail) ==> hit.Within(io.Events(fd))
  }

  /** One iteration of the event loop in Idle. */
  function HandleReady(io: Io, fd: nat, r: Ready, fail: bool): Io
    requires ReadyAsserts(io, fd, r, fail)
  {
    var hit := Real(io, fd, r);
    var left := io.Events(fd).Minus(hit);
    if io.Events(fd).And(hit).None() || !CtlOk(io.kernel, DropOp(left), fd, fail) then io
    else TriggerMask(io, fd, hit).(kernel := Ctl(io.kernel, DropOp(left), fd, left))
  }

  // ------------------------------------------------------------------ invariants

  function Bits(c: FdState): nat { c.events.Count() }

  /** pending_event_count_ is the number of registered events; what was added was triggered, deleted or is
      still pending; a bit is set exactly when its context is in use. */
  ghost predicate Ledger(io: Io) {
    && (forall fd :: 0 <= fd < |io.contexts| ==> io.contexts[fd].Ok())
    && io.pending == Sum(io.contexts, Bits)
    && io.adds == io.triggers + io.deletes + io.pending
  }

  /** The kernel agrees with the contexts on every descriptor, except on exactly those closed while registered. */
  ghost predicate KernelAgrees(io: Io, clobbered: set<nat>) {
    forall fd: nat :: InStep(io, fd, clobbered)
  }

  ghost predicate InStep(io: Io, fd: nat, clobbered: set<nat>) {
    if fd in clobbered then Dead(io, fd) else AgreesOn(io, fd)
  }

  /** Closed while registered: the bits are still set, and the kernel does not know the descriptor. */
  ghost predicate Dead(io: Io, fd: nat) {
    fd !in io.kernel && !io.Events(fd).None()
  }

  ghost predicate AgreesOn(io: Io, fd: nat) {
    && (fd in io.kernel <==> !io.Events(fd).None())
    && (fd in io.kernel ==> io.kernel[fd] == io.Events(fd))
  }

  /** The table starts with 32 contexts and only grows, so a grown table always has room. */
  predicate Sized(io: Io) { |io.contexts| >= 32 }

  lemma GrownHasRoom(cs: seq<FdState>, fd: nat)
    requires |cs| >= 32
    ensures fd < |Grown(cs, fd)| && |cs| <= |Grown(cs, fd)|
    ensures forall k :: 0 <= k < |cs| ==> Grown(cs, fd)[k] == cs[k]
    ensures forall k :: |cs| <= k < |Grown(cs, fd)| ==> Grown(cs, fd)[k] == FRESH_FD
  {
  }

  lemma GrownSum(cs: seq<FdState>, fd: nat, w: FdState -> nat)
    requires w(FRESH_FD) == 0
    ensures Sum(Grown(cs, fd), w) == Sum(cs, w)
  {
    if !(fd < |cs| || fd * 3 / 2 <= |cs|) {
      var more := seq(fd * 3 / 2 - |cs|, _ => FRESH_FD);
      SumConcat(cs, more, w);
      SumZero(more, w);
    }
  }

  // ------------------------------------------------------------------ every operation keeps them

  lemma AddEventLedger(io: Io, fd: nat, e: Event, holder: EventContext, fail: bool)
    requires Ledger(io) && Sized(io) && MayAdd(io, fd, e) && holder.Held()
    ensures Ledger(AddEvent(io, fd, e, holder, fail).0)
    ensures Grown(io.contexts, fd)[fd].Ctx(e) == EMPTY
  {
    GrownHasRoom(io.contexts, fd);
    GrownSum(io.contexts, fd, Bits);
    var cs := Grown(io.contexts, fd);
    assert cs[fd].Ok();
    SumUpdate(cs, fd, cs[fd].SetCtx(e, holder).(events := cs[fd].events.With(e)), Bits);
  }

  lemma DelEventLedger(io: Io, fd: nat, e: Event, fail: bool)
    requires Ledger(io)
    ensures Ledger(DelEvent(io, fd, e, fail).0)
  {
    if io.Registered(fd, e) {
      SumUpdate(io.contexts, fd, io.contexts[fd].Clear(e), Bits);
    }
  }

  lemma TriggerLedger(io: Io, fd: nat, e: Event)
    requires Ledger(io) && io.Registered(fd, e)
    ensures Ledger(Trigger(io, fd, e))
    ensures Trigger(io, fd, e).tasks == io.tasks + [io.contexts[fd].Ctx(e).Wake()]
  {
    assert io.contexts[fd].Ok();
    SumUpdate(io.contexts, fd, io.contexts[fd].Clear(e), Bits);
  }

  lemma TriggerMaskLedger(io: Io, fd: nat, m: Mask)
    requires Ledger(io) && m.Within(io.Events(fd))
    ensures Ledger(TriggerMask(io, fd, m))
  {
    if m.read { TriggerLedger(io, fd, READ); }
    var io' := TriggerIf(io, fd, READ, m.read);
    if m.write { TriggerLedger(io', fd, WRITE); }
  }

  lemma CancelEventLedger(io: Io, fd: nat, e: Event, fail: bool)
    requires Ledger(io)
    ensures Ledger(CancelEvent(io, fd, e, fail).0)
  {
    if io.Registered(fd, e) { TriggerLedger(io, fd, e); }
  }

  lemma CancelAllLedger(io: Io, fd: nat, fail: bool)
    requires Ledger(io)
    ensures Ledger(CancelAll(io, fd, fail).0)
  {
    TriggerMaskLedger(io, fd, io.Events(fd));
  }

  lemma HandleReadyLedger(io: Io, fd: nat, r: Ready, fail: bool)
    requires Ledger(io) && ReadyAsserts(io, fd, r, fail)
    ensures Ledger(HandleReady(io, fd, r, fail))
  {
    if Real(io, fd, r).Within(io.Events(fd)) {
      TriggerMaskLedger(io, fd, Real(io, fd, r));
    }
  }

  /** ADD goes out only for an absent descriptor and MOD only for a present one; the kernel mask is the
      context's mask afterwards whether or not the call succeeded. */
  lemma AddEventKernel(io: Io, fd: nat, e: Event, holder: EventContext, fail: bool, clobbered: set<nat>)
    requires KernelAgrees(io, clobbered) && Sized(io) && MayAdd(io, fd, e)
    ensures KernelAgrees(AddEvent(io, fd, e, holder, fail).0, clobbered)
    ensures fd !in clobbered ==>
      && CtlLegal(io.kernel, AddOp(io.Events(fd)), fd)
      && (AddEvent(io, fd, e, holder, fail).1 <==> !fail)
  {
    GrownHasRoom(io.contexts, fd);
    var io' := AddEvent(io, fd, e, holder, fail).0;
    assert InStep(io, fd, clobbered);
    forall k: nat ensures InStep(io', k, clobbered) { assert InStep(io, k, clobbered); }
  }

  lemma DelEventKernel(io: Io, fd: nat, e: Event, fail: bool, clobbered: set<nat>)
    requires KernelAgrees(io, clobbered)
    ensures KernelAgrees(DelEvent(io, fd, e, fail).0, clobbered)
    ensures fd !in clobbered ==> (DelEvent(io, fd, e, fail).1 <==> io.Registered(fd, e) && !fail)
  {
    var io' := DelEvent(io, fd, e, fail).0;
    assert InStep(io, fd, clobbered);
    forall k: nat ensures InStep(io', k, clobbered) { assert InStep(io, k, clobbered); }
  }

  lemma CancelEventKernel(io: Io, fd: nat, e: Event, fail: bool, clobbered: set<nat>)
    requires KernelAgrees(io, clobbered)
    ensures KernelAgrees(CancelEvent(io, fd, e, fail).0, clobbered)
    ensures fd !in clobbered ==> (CancelEvent(io, fd, e, fail).1 <==> io.Registered(fd, e) && !fail)
  {
    var io' := CancelEvent(io, fd, e, fail).0;
    assert InStep(io, fd, clobbered);
    forall k: nat ensures InStep(io', k, clobbered) { assert InStep(io, k, clobbered); }
  }

  lemma TriggerMaskEvents(io: Io, fd: nat, m: Mask)
    requires m.Within(io.Events(fd))
    ensures TriggerMask(io, fd, m).Events(fd) == io.Events(fd).Minus(m)
    ensures forall k: nat :: k != fd ==> TriggerMask(io, fd, m).Events(k) == io.Events(k)
    ensures TriggerMask(io, fd, m).kernel == io.kernel
  {
  }

  lemma CancelAllKernel(io: Io, fd: nat, fail: bool, clobbered: set<nat>)
    requires KernelAgrees(io, clobbered)
    ensures KernelAgrees(CancelAll(io, fd, fail).0, clobbered)
    ensures CancelAll(io, fd, fail).1 ==> CancelAll(io, fd, fail).0.Events(fd).None()
    ensures fd !in clobbered ==> (CancelAll(io, fd, fail).1 <==> !io.Events(fd).None() && !fail)
  {
    var io' := CancelAll(io, fd, fail).0;
    TriggerMaskEvents(io, fd, io.Events(fd));
    assert InStep(io, fd, clobbered);
    forall k: nat ensures InStep(io', k, clobbered) { assert InStep(io, k, clobbered); }
  }

  lemma HandleReadyKernel(io: Io, fd: nat, r: Ready, fail: bool, clobbered: set<nat>)
    requires KernelAgrees(io, clobbered) && ReadyAsserts(io, fd, r, fail)
    ensures KernelAgrees(HandleReady(io, fd, r, fail), clobbered)
    ensures fd !in clobbered && !io.Events(fd).And(Real(io, fd, r)).None() ==>
      CtlLegal(io.kernel, DropOp(io.Events(fd).Minus(Real(io, fd, r))), fd)
  {
    var io' := HandleReady(io, fd, r, fail);
    if Real(io, fd, r).Within(io.Events(fd)) {
      TriggerMaskEvents(io, fd, Real(io, fd, r));
    }
    assert InStep(io, fd, clobbered);
    forall k: nat ensures InStep(io', k, clobbered) { assert InStep(io, k, clobbered); }
  }

  /** close() drops the descriptor from the kernel. */
  function Closed(io: Io, fd: nat): Io {
    io.(kernel := map k | k in io.kernel && k != fd :: io.kernel[k])
  }

  /** The descriptors whose contexts the next close leaves behind. */
  function Left(io: Io, fd: nat, clobbered: set<nat>): set<nat> {
    if io.Events(fd).None() then clobbered else clobbered + {fd}
  }

  // ------------------------------------------------------------------ descriptors closed while registered

  /** Closing keeps the agreement if and only if nothing is registered on the descriptor at that moment, or it was
      closed in that way before; in any case it is again exact, with the descriptor counted in. */
  lemma CloseKeepsAgreement(io: Io, fd: nat, clobbered: set<nat>)
    requires KernelAgrees(io, clobbered)
    ensures KernelAgrees(Closed(io, fd), clobbered) <==> io.Events(fd).None() || fd in clobbered
    ensures KernelAgrees(Closed(io, fd), Left(io, fd, clobbered))
  {
    var io' := Closed(io, fd);
    assert InStep(io, fd, clobbered);
    forall k: nat ensures k != fd ==> InStep(io', k, clobbered) && InStep(io', k, Left(io, fd, clobbered)) {
      assert InStep(io, k, clobbered);
    }
    assert InStep(io', fd, clobbered) <==> io.Events(fd).None() || fd in clobbered;
    assert InStep(io', fd, Left(io, fd, clobbered));
  }

  /** On such a descriptor every call fails, every report is ignored, and closing it again changes nothing: it stays
      so for ever. */
  lemma DeadStaysDead(io: Io, fd: nat, e: Event, holder: EventContext, r: Ready, fail: bool)
    requires Dead(io, fd)
    ensures MayAdd(io, fd, e) ==> AddEvent(io, fd, e, holder, fail) == (io, false)
    ensures DelEvent(io, fd, e, fail) == (io, false)
    ensures CancelEvent(io, fd, e, fail) == (io, false)
    ensures CancelAll(io, fd, fail) == (io, false)
    ensures ReadyAsserts(io, fd, r, fail) && HandleReady(io, fd, r, fail) == io
    ensures Closed(io, fd) == io
  {
    assert Closed(io, fd).kernel == io.kernel;
  }

  // ------------------------------------------------------------------ the assertion in TriggerEvent

  /** TriggerEvent with its ASSERT: None when the bit is clear. */
  function TriggerChecked(io: Option<Io>, fd: nat, e: Event, b: bool): Option<Io> {
    if !b || io.None? then io
    else if io.value.Registered(fd, e) then Some(Trigger(io.value, fd, e)) else None
  }

  /** One iteration of the event loop as it is written: both triggers run on the unmasked `real_events`. */
  function HandleChecked(io: Io, fd: nat, r: Ready, fail: bool): Option<Io> {
    var hit := Real(io, fd, r);
    var left := io.Events(fd).Minus(hit);
    if io.Events(fd).And(hit).None() || !CtlOk(io.kernel, DropOp(left), fd, fail) then Some(io)
    else
      var io1 := Some(io.(kernel := Ctl(io.kernel, DropOp(left), fd, left)));
      TriggerChecked(TriggerChecked(io1, fd, READ, hit.read), fd, WRITE, hit.write)
  }

  /** The iteration gets past its assertions if and only if `ReadyAsserts` holds, and then it is `HandleReady`. */
  lemma AssertsExactly(io: Io, fd: nat, r: Ready, fail: bool)
    ensures HandleChecked(io, fd, r, fail).Some? <==> ReadyAsserts(io, fd, r, fail)
    ensures ReadyAsserts(io, fd, r, fail) ==> HandleChecked(io, fd, r, fail) == Some(HandleReady(io, fd, r, fail))
  {
  }

  // ------------------------------------------------------------------ sequences of calls

  datatype Call =
    | CallAdd(fd: nat, e: Event, cb: Option<Callback>, cur: FiberId, sched: nat, fail: bool)
    | CallDel(fd: nat, e: Event, fail: bool)
    | CallCancel(fd: nat, e: Event, fail: bool)
    | CallCancelAll(fd: nat, fail: bool)
    | CallReady(fd: nat, ready: Ready, fail: bool)    // one iteration of the event loop

  /** One call; None when an ASSERT fails, or when a report is about no context. */
  function Do(io: Io, c: Call): Option<Io> {
    match c
    case CallAdd(fd, e, cb, cur, sched, fail) =>
      if MayAdd(io, fd, e) then Some(AddEvent(io, fd, e, Holder(sched, cb, cur), fail).0) else None
    case CallDel(fd, e, fail) => Some(DelEvent(io, fd, e, fail).0)
    case CallCancel(fd, e, fail) => Some(CancelEvent(io, fd, e, fail).0)
    case CallCancelAll(fd, fail) => Some(CancelAll(io, fd, fail).0)
    case CallReady(fd, ready, fail) => if fd < |io.contexts| then HandleChecked(io, fd, ready, fail) else None
  }

  function DoAll(io: Io, cs: seq<Call>): Option<Io> {
    if cs == [] then Some(io)
    else
      var b := DoAll(io, cs[..|cs| - 1]);
      if b.None? then None else Do(b.value, cs[|cs| - 1])
  }

  const START := Io(seq(32, _ => FRESH_FD), 0, map[], [], 0, 0, 0)

  ghost predicate Good(io: Io) {
    Ledger(io) && KernelAgrees(io, {}) && Sized(io)
  }

  lemma StartGood()
    ensures Good(START)
  {
    SumZero(START.contexts, Bits);
    forall fd: nat ensures InStep(START, fd, {}) {}
  }

  lemma DoKeeps(io: Io, c: Call)
    requires Good(io) && Do(io, c).Some?
    ensures Good(Do(io, c).value)
  {
    hide Ledger, KernelAgrees;
    match c {
      case CallAdd(fd, e, cb, cur, sched, fail) =>
        AddEventLedger(io, fd, e, Holder(sched, cb, cur), fail);
        AddEventKernel(io, fd, e, Holder(sched, cb, cur), fail, {});
      case CallDel(fd, e, fail) =>
        DelEventLedger(io, fd, e, fail);
        DelEventKernel(io, fd, e, fail, {});
      case CallCancel(fd, e, fail) =>
        CancelEventLedger(io, fd, e, fail);
        CancelEventKernel(io, fd, e, fail, {});
      case CallCancelAll(fd, fail) =>
        CancelAllLedger(io, fd, fail);
        CancelAllKernel(io, fd, fail, {});
      case CallReady(fd, ready, fail) =>
        AssertsExactly(io, fd, ready, fail);
        HandleReadyLedger(io, fd, ready, fail);
        HandleReadyKernel(io, fd, ready, fail, {});
    }
  }
}
