/** The IO manager as the source writes it: descriptor contexts are objects updated in place. Every method
    is proved to do to the abstract value `View()` what the function of the same name in `IoManager` does;
    `fail` is the environment's choice that an epoll_ctl call fails. */
module IoManagerObject {
  import opened Sums
  import opened Tasks
  import Spec = IoManager

  type EventContext = Spec.EventContext
  type Mask = Spec.Mask

  class FdContext {
    const fd: nat
    var read: EventContext
    var write: EventContext
    var events: Mask

    constructor (fd: nat)
      ensures this.fd == fd && View() == Spec.FRESH_FD
    {
      this.fd := fd;
      read, write, events := Spec.EMPTY, Spec.EMPTY, Spec.Mask(false, false);
    }

    ghost function View(): Spec.FdState
      reads this
    {
      Spec.FdState(read, write, events)
    }

    function GetEventContext(e: Event): EventContext
      reads this
    {
      if e == READ then read else write
    }

    method SetEventContext(e: Event, c: EventContext)
      modifies this`read, this`write
      ensures View() == old(View()).SetCtx(e, c)
    {
      if e == READ { read := c; } else { write := c; }
    }

    /** ResetEventContext */
    method ResetEventContext(e: Event)
      modifies this`read, this`write
      ensures View() == old(View()).SetCtx(e, Spec.EMPTY)
    {
      SetEventContext(e, Spec.EventContext(None, None, None));
    }

    /** TriggerEvent returns the task that it hands to the context's scheduler. */
    method TriggerEvent(e: Event) returns (t: Task)
      requires events.Has(e)
      modifies this
      ensures View() == old(View()).Clear(e)
      ensures t == old(View()).Ctx(e).Wake()
    {
      events := events.Without(e);
      var ctx := GetEventContext(e);
      if ctx.cb.Some? {
        t := Task(None, ctx.cb, None);
      } else {
        t := Task(ctx.fiber, None, None);
      }
      ResetEventContext(e);
    }
  }

  class IOManager {
    var contexts: seq<FdContext>
    var pending: int
    var kernel: map<nat, Mask>
    var tasks: seq<Task>
    ghost var adds: nat
    ghost var triggers: nat
    ghost var deletes: nat

    ghost predicate Valid()
      reads this
    {
      && (forall i :: 0 <= i < |contexts| ==> contexts[i].fd == i)
      && (forall i, j :: 0 <= i < j < |contexts| ==> contexts[i] != contexts[j])
    }

    ghost function View(): Spec.Io
      reads this, contexts
    {
      Spec.Io(Views(contexts), pending, kernel, tasks, adds, triggers, deletes)
    }

    static ghost function Views(cs: seq<FdContext>): seq<Spec.FdState>
      reads cs
    {
      seq(|cs|, i requires 0 <= i < |cs| reads cs => cs[i].View())
    }

    /** The IO part of the constructor. */
    constructor ()
      ensures Valid() && fresh(contexts)
      ensures View() == Spec.Io(seq(32, _ => Spec.FRESH_FD), 0, map[], [], 0, 0, 0)
    {
      contexts, pending, kernel, tasks := [], 0, map[], [];
      adds, triggers, deletes := 0, 0, 0;
      new;
      ContextResize(32);
    }

    /** vector::resize drops what is beyond the new size; then every hole gets an empty context. */
    method ContextResize(size: nat)
      requires Valid()
      modifies this`contexts
      ensures Valid() && |contexts| == size
      ensures size <= |old(contexts)| ==> contexts == old(contexts)[..size]
      ensures size > |old(contexts)| ==> old(contexts) <= contexts
      ensures forall i :: |old(contexts)| <= i < size ==> fresh(contexts[i]) && contexts[i].View() == Spec.FRESH_FD
    {
      if size < |contexts| {
        contexts := contexts[..size];
      }
      while |contexts| < size
        invariant Valid() && |contexts| <= size
        invariant size <= |old(contexts)| ==> contexts == old(contexts)[..size]
        invariant size > |old(contexts)| ==> old(contexts) <= contexts
        invariant forall i :: |old(contexts)| <= i < |contexts| ==>
                    fresh(contexts[i]) && contexts[i].View() == Spec.FRESH_FD
        decreases size - |contexts|
      {
        var c := new FdContext(|contexts|);
        contexts := contexts + [c];
      }
    }

    /** epoll_ctl: 0, or -1 without effect. */
    method EpollCtl(op: Spec.Op, fd: nat, m: Mask, fail: bool) returns (rt: int)
      modifies this`kernel
      ensures rt == if Spec.CtlOk(old(kernel), op, fd, fail) then 0 else -1
      ensures kernel == if rt == 0 then Spec.Ctl(old(kernel), op, fd, m) else old(kernel)
    {
      if fail || (op == Spec.ADD && fd in kernel) || (op != Spec.ADD && fd !in kernel) {
        return -1;
      }
      if op == Spec.DEL {
        kernel := map k | k in kernel && k != fd :: kernel[k];
      } else {
        kernel := kernel[fd := m];
      }
      return 0;
    }

    method Schedule(t: Task)
      modifies this`tasks
      ensures tasks == Scheduled(old(tasks), t)
    {
      if t.fiber.Some? || t.cb.Some? {
        tasks := tasks + [t];
      }
    }

    /** TriggerEvent on the context of `fd`, and the decrement of the pending count. */
    method Trigger(fd: nat, e: Event)
      requires Valid() && View().Registered(fd, e)
      modifies this`tasks, this`pending, this`triggers, contexts[fd]
      ensures Valid() && contexts == old(contexts)
      ensures View() == Spec.Trigger(old(View()), fd, e)
    {
      var t := contexts[fd].TriggerEvent(e);
      Schedule(t);
      pending := pending - 1;
      triggers := triggers + 1;
      assert View().contexts == old(View().contexts)[fd := old(View().contexts)[fd].Clear(e)];
    }

    /** The lookup at the head of AddEvent: make room for `fd` when the table is too short. */
    method Lookup(fd: nat) returns (c: FdContext)
      requires Valid() && Spec.Sized(View())
      modifies this`contexts
      ensures Valid() && View() == old(View()).(contexts := Spec.Grown(old(View().contexts), fd))
      ensures fd < |contexts| && c == contexts[fd]
      ensures forall x :: x in contexts ==> x in old(contexts) || fresh(x)
    {
      if fd >= |contexts| {
        ContextResize(fd * 3 / 2);
      }
      assert Views(contexts) == Spec.Grown(old(View().contexts), fd);
      c := contexts[fd];
    }

    /** The end of AddEvent: set the bit and fill the empty context. */
    method Register(fd: nat, e: Event, cb: Option<Callback>, cur: FiberId, sched: nat)
      requires Valid() && fd < |contexts| && contexts[fd].View().Ctx(e) == Spec.EMPTY
      modifies this`pending, this`adds, contexts[fd]
      ensures Valid()
      ensures View() == old(View()).(
        pending := old(pending) + 1, adds := old(adds) + 1,
        contexts := old(View().contexts)[fd := old(contexts[fd].View())
          .SetCtx(e, Spec.Holder(sched, cb, cur)).(events := old(contexts[fd].events).With(e))])
    {
      var c := contexts[fd];
      pending := pending + 1;
      adds := adds + 1;
      c.events := c.events.With(e);
      var ctx := c.GetEventContext(e);
      assert ctx.scheduler.None? && ctx.fiber.None? && ctx.cb.None?;   // the second ASSERT of AddEvent
      if cb.Some? {
        c.SetEventContext(e, Spec.EventContext(Some(sched), None, cb));
      } else {
        c.SetEventContext(e, Spec.EventContext(Some(sched), Some(cur), None));
      }
      assert Views(contexts) == old(View().contexts)[fd := c.View()];
    }

    /** AddEvent. The registration of an event twice is the caller's failed ASSERT. */
    method AddEvent(fd: nat, e: Event, cb: Option<Callback>, cur: FiberId, sched: nat, fail: bool) returns (rt: int)
      requires Valid() && Spec.Sized(View()) && Spec.Ledger(View()) && Spec.MayAdd(View(), fd, e)
      modifies this, contexts
      ensures Valid() && forall x :: x in contexts ==> x in old(contexts) || fresh(x)
      ensures
        var (io, ok) := Spec.AddEvent(old(View()), fd, e, Spec.Holder(sched, cb, cur), fail);
        View() == io && rt == if ok then 0 else -1
    {
      hide Spec.Ledger, Spec.Grown;
      ghost var io0 := View();
      var c := Lookup(fd);
      assert c in contexts;
      assert c.View() == View().contexts[fd];
      assert View().contexts[fd].Ctx(e) == Spec.EMPTY by {
        Spec.AddEventLedger(io0, fd, e, Spec.Holder(sched, cb, cur), fail);
      }
      var op := if c.events.None() then Spec.ADD else Spec.MOD;
      rt := EpollCtl(op, fd, c.events.With(e), fail);
      if rt == 0 {
        Register(fd, e, cb, cur, sched);
      }
    }

    method DelEvent(fd: nat, e: Event, fail: bool) returns (ok: bool)
      requires Valid()
      modifies this, contexts
      ensures Valid() && contexts == old(contexts) && (View(), ok) == Spec.DelEvent(old(View()), fd, e, fail)
    {
      if |contexts| <= fd || !contexts[fd].events.Has(e) {
        return false;
      }
      var c := contexts[fd];
      var left := c.events.Without(e);
      var rt := EpollCtl(if left.None() then Spec.DEL else Spec.MOD, fd, left, fail);
      if rt != 0 {
        return false;
      }
      pending := pending - 1;
      deletes := deletes + 1;
      c.events := left;
      c.ResetEventContext(e);
      assert Views(contexts) == old(View().contexts)[fd := c.View()];
      return true;
    }

    method CancelEvent(fd: nat, e: Event, fail: bool) returns (ok: bool)
      requires Valid()
      modifies this, contexts
      ensures Valid() && contexts == old(contexts) && (View(), ok) == Spec.CancelEvent(old(View()), fd, e, fail)
    {
      if |contexts| <= fd || !contexts[fd].events.Has(e) {
        return false;
      }
      var left := contexts[fd].events.Without(e);
      var rt := EpollCtl(if left.None() then Spec.DEL else Spec.MOD, fd, left, fail);
      if rt != 0 {
        return false;
      }
      Trigger(fd, e);
      return true;
    }

    method CancelAll(fd: nat, fail: bool) returns (ok: bool)
      requires Valid()
      modifies this, contexts
      ensures Valid() && contexts == old(contexts) && (View(), ok) == Spec.CancelAll(old(View()), fd, fail)
      ensures ok ==> fd < |contexts| && contexts[fd].events.None()             // the ASSERT at its end
    {
      if |contexts| <= fd || contexts[fd].events.None() {
        return false;
      }
      var rt := EpollCtl(Spec.DEL, fd, Spec.Mask(false, false), fail);
      if rt != 0 {
        return false;
      }
      Spec.TriggerMaskEvents(View(), fd, contexts[fd].events);
      TriggerBoth(fd, contexts[fd].events);
      assert View().Events(fd) == contexts[fd].events;
      return true;
    }

    /** READ then WRITE, as far as `m` names them. */
    method TriggerBoth(fd: nat, m: Mask)
      requires Valid() && m.Within(View().Events(fd)) && fd < |contexts|
      modifies this`tasks, this`pending, this`triggers, contexts[fd]
      ensures Valid() && contexts == old(contexts)
      ensures View() == Spec.TriggerMask(old(View()), fd, m)
    {
      if m.read {
        Trigger(fd, READ);
      }
      if m.write {
        Trigger(fd, WRITE);
      }
    }

    /** One report of epoll_wait handled by Idle. */
    method HandleReady(fd: nat, r: Spec.Ready, fail: bool)
      requires Valid() && fd < |contexts| && Spec.ReadyAsserts(View(), fd, r, fail)
      modifies this, contexts
      ensures Valid() && contexts == old(contexts) && View() == Spec.HandleReady(old(View()), fd, r, fail)
    {
      var ev := contexts[fd].events;
      var r' := r;
      if r.errHup {
        r' := Spec.Ready(r.readIn || ev.read, r.writeOut || ev.write, true);
      }
      var hit := Spec.Mask(r'.readIn, r'.writeOut);
      if ev.And(hit).None() {
        return;
      }
      var left := ev.Minus(hit);
      var rt := EpollCtl(if left.None() then Spec.DEL else Spec.MOD, fd, left, fail);
      if rt != 0 {
        return;
      }
      TriggerBoth(fd, hit);
    }
  }

  /** The call that `c` names. */
  method Perform(iom: IOManager, c: Spec.Call)
    requires iom.Valid() && Spec.Good(iom.View()) && Spec.Do(iom.View(), c).Some?
    modifies iom, iom.contexts
    ensures iom.Valid() && Spec.Do(old(iom.View()), c) == Some(iom.View())
    ensures forall x :: x in iom.contexts ==> x in old(iom.contexts) || fresh(x)
  {
    hide Spec.KernelAgrees;
    match c {
      case CallAdd(fd, e, cb, cur, sched, fail) => var rt := iom.AddEvent(fd, e, cb, cur, sched, fail);
      case CallDel(fd, e, fail) => var ok := iom.DelEvent(fd, e, fail);
      case CallCancel(fd, e, fail) => var ok := iom.CancelEvent(fd, e, fail);
      case CallCancelAll(fd, fail) => var ok := iom.CancelAll(fd, fail);
      case CallReady(fd, ready, fail) =>
        Spec.AssertsExactly(iom.View(), fd, ready, fail);
        iom.HandleReady(fd, ready, fail);
    }
  }

  /** Any sequence of calls that gets past its ASSERTs, on a new object: the object ends where the value functions end,
      with an exact ledger and a kernel that agrees. */
  method Replay(cs: seq<Spec.Call>) returns (iom: IOManager)
    requires Spec.DoAll(Spec.START, cs).Some?
    ensures fresh(iom) && iom.Valid() && Spec.DoAll(Spec.START, cs) == Some(iom.View())
    ensures Spec.Ledger(iom.View()) && Spec.KernelAgrees(iom.View(), {})
  {
    hide Spec.Ledger, Spec.KernelAgrees, Spec.Do;
    iom := new IOManager();
    Spec.StartGood();
    var i := 0;
    while i < |cs|
      invariant 0 <= i <= |cs| && fresh(iom) && iom.Valid()
      invariant forall k :: 0 <= k < |iom.contexts| ==> fresh(iom.contexts[k])
      invariant Spec.DoAll(Spec.START, cs[..i]) == Some(iom.View()) && Spec.Good(iom.View())
    {
      DonePrefix(Spec.START, cs, i + 1);
      assert cs[..i + 1][..i] == cs[..i];
      Spec.DoKeeps(iom.View(), cs[i]);
      Perform(iom, cs[i]);
      assert forall k :: 0 <= k < |iom.contexts| ==> iom.contexts[k] in iom.contexts;
      i := i + 1;
    }
    assert cs[..i] == cs;
  }

  lemma {:induction false} DonePrefix(io: Spec.Io, cs: seq<Spec.Call>, i: nat)
    requires Spec.DoAll(io, cs).Some? && i <= |cs|
    ensures Spec.DoAll(io, cs[..i]).Some?
    decreases |cs|
  {
    if i == |cs| {
      assert cs[..i] == cs;
    } else {
      var n := |cs| - 1;
      DonePrefix(io, cs[..n], i);
      assert cs[..n][..i] == cs[..i];
    }
  }
}
