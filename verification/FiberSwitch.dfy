/** Control transfer between fibers: saved contexts, swapcontext and the thread-local pointers of fiber.cc, proved to be
    call and return on one stack per thread. */
module FiberSwitch {
  import opened Sums
  import opened Tasks

  /** `saved` says whose continuation lies in ctx_; None when the one that lay there has been taken up again. `self` is
      the fiber that MainFunc found in t_fiber when it was entered. */
  datatype Fiber = Fiber(state: FiberState, inScheduler: bool, saved: Option<FiberId>, self: Option<FiberId>)

  /** The thread's main fiber (t_thread_fiber), its scheduling fiber (t_scheduler_fiber), t_fiber, and the fiber whose
      stack the thread executes. */
  datatype Thread = Thread(main: FiberId, sched: FiberId, current: FiberId, exec: FiberId)

  /** `bad`: a context was loaded that had been taken up before, or an ASSERT failed. */
  datatype State = State(fibers: seq<Fiber>, threads: seq<Thread>, bad: bool)

  datatype Action =
    | Resume(t: nat, f: FiberId)     // the code on thread t calls f->Resume()
    | Yield(t: nat)                  // the code on thread t calls GetThis()->Yield()
    | Finish(t: nat)                 // MainFunc of the fiber on thread t comes to its end
    | Create                         // a new task fiber
    | Reset(f: FiberId)

  /** Every pointer names a fiber. */
  ghost predicate Closed(s: State) {
    && (forall t :: 0 <= t < |s.threads| ==>
          s.threads[t].main < |s.fibers| && s.threads[t].sched < |s.fibers| && s.threads[t].current < |s.fibers|
          && s.threads[t].exec < |s.fibers|)
    && (forall f :: 0 <= f < |s.fibers| ==> s.fibers[f].saved.Some? ==> s.fibers[f].saved.value < |s.fibers|)
    && (forall f :: 0 <= f < |s.fibers| ==> s.fibers[f].self.Some? ==> s.fibers[f].self.value < |s.fibers|)
  }

  /** The fiber whose ctx_ Resume saves to and Yield loads from, for `f` on thread `t`. */
  function Slot(s: State, t: nat, f: FiberId): FiberId
    requires t < |s.threads| && f < |s.fibers|
  {
    if s.fibers[f].inScheduler then s.threads[t].sched else s.threads[t].main
  }

  /** swapcontext(&a->ctx_, &b->ctx_) on thread t. */
  function Swap(s: State, t: nat, a: FiberId, b: FiberId): State
    requires t < |s.threads| && a < |s.fibers| && b < |s.fibers|
  {
    var th := s.threads[t];
    var fs := s.fibers[a := s.fibers[a].(saved := Some(th.exec))];
    if fs[b].saved.None? then s.(bad := true)
    else s.(fibers := fs[b := fs[b].(saved := None)], threads := s.threads[t := th.(exec := fs[b].saved.value)])
  }

  function SetThis(s: State, t: nat, f: FiberId): State
    requires t < |s.threads|
  {
    s.(threads := s.threads[t := s.threads[t].(current := f)])
  }

  function SetState(s: State, f: FiberId, st: FiberState): State
    requires f < |s.fibers|
  {
    s.(fibers := s.fibers[f := s.fibers[f].(state := st)])
  }

  /** MainFunc, up to the call of cb_: remember t_fiber, the first time. */
  function Entered(s: State, t: nat): State
    requires t < |s.threads|
  {
    var th := s.threads[t];
    if th.exec < |s.fibers| && s.fibers[th.exec].self.None?
    then s.(fibers := s.fibers[th.exec := s.fibers[th.exec].(self := Some(th.current))])
    else s
  }

  function DoResume(s: State, t: nat, f: FiberId): State
    requires t < |s.threads| && f < |s.fibers| && Slot(s, t, f) < |s.fibers|
  {
    if s.fibers[f].state != READY then s.(bad := true)
    else Entered(Swap(SetState(SetThis(s, t, f), f, RUNNING), t, Slot(s, t, f), f), t)
  }

  function DoYield(s: State, t: nat, f: FiberId): State
    requires t < |s.threads| && f < |s.fibers| && Slot(s, t, f) < |s.fibers|
  {
    if s.fibers[f].state == READY then s.(bad := true)
    else
      var s1 := SetThis(s, t, s.threads[t].main);
      Swap(if s.fibers[f].state == TERM then s1 else SetState(s1, f, READY), t, f, Slot(s, t, f))
  }

  function Apply(s: State, a: Action): State
    requires Closed(s) && Named(s, a)
  {
    match a
    case Resume(t, f) => DoResume(s, t, f)
    case Yield(t) => DoYield(s, t, s.threads[t].current)
    case Finish(t) => var f := s.fibers[s.threads[t].exec].self.value; DoYield(SetState(s, f, TERM), t, f)
    case Create => s.(fibers := s.fibers + [Fiber(READY, true, Some(|s.fibers|), None)])
    case Reset(f) => s.(fibers := s.fibers[f := s.fibers[f].(state := READY, saved := Some(f), self := None)])
  }

  /** The action speaks of things that exist; Reset's ASSERT holds. */
  predicate Named(s: State, a: Action) {
    match a
    case Resume(t, f) => t < |s.threads| && f < |s.fibers|
    case Yield(t) => t < |s.threads|
    case Finish(t) => t < |s.threads| && s.threads[t].exec < |s.fibers| && s.fibers[s.threads[t].exec].self.Some?
    case Create => true
    case Reset(f) => f < |s.fibers| && s.fibers[f].inScheduler && s.fibers[f].state == TERM
  }

  /** Who does what, in a run that Resume's ASSERT has not halted: task fibers are resumed by the scheduling fiber's
      code, the caller thread's scheduling fiber by its main fiber (Stop); task code yields; task code and Run come to
      an end. Task code does not call Resume. */
  predicate Disciplined(s: State, a: Action) {
    && Named(s, a)
    && match a
       case Resume(t, f) =>
         && s.fibers[f].state == READY
         && (if s.fibers[f].inScheduler then s.threads[t].exec == s.threads[t].sched
             else f == s.threads[t].sched && s.threads[t].exec == s.threads[t].main)
       case Yield(t) => s.threads[t].exec < |s.fibers| && s.fibers[s.threads[t].exec].inScheduler
       case Finish(t) => s.threads[t].exec != s.threads[t].main
       case Create => true
       case Reset(_) => true
  }

  // ---------------------------------------------------------------- the reference: call and return

  /** One stack of fibers per thread: Resume calls, Yield and Finish return. */
  function Returned(stack: seq<FiberId>): seq<FiberId> {
    if stack == [] then [] else stack[..|stack| - 1]
  }

  function Called(stacks: seq<seq<FiberId>>, a: Action): (r: seq<seq<FiberId>>)
    ensures |r| == |stacks|
  {
    match a
    case Resume(t, f) => if t < |stacks| then stacks[t := stacks[t] + [f]] else stacks
    case Yield(t) => if t < |stacks| then stacks[t := Returned(stacks[t])] else stacks
    case Finish(t) => if t < |stacks| then stacks[t := Returned(stacks[t])] else stacks
    case _ => stacks
  }

  function StacksAfter(stacks: seq<seq<FiberId>>, acts: seq<Action>): (r: seq<seq<FiberId>>)
    ensures |r| == |stacks|
  {
    if acts == [] then stacks else Called(StacksAfter(stacks, acts[..|acts| - 1]), acts[|acts| - 1])
  }

  // ---------------------------------------------------------------- the invariant

  /** Thread `t` executes the top of its stack, and each fiber below it waits in its own context for the one above. */
  ghost predicate Stacked(s: State, t: nat, stack: seq<FiberId>)
    requires t < |s.threads|
  {
    var th := s.threads[t];
    && stack != [] && stack[0] == th.main && stack[|stack| - 1] == th.exec
    && (forall i :: 0 <= i < |stack| ==> stack[i] < |s.fibers|)
    && (forall i :: 0 <= i < |stack| ==> s.fibers[stack[i]].state == RUNNING)
    && (forall i :: 0 <= i < |stack| - 1 ==> s.fibers[stack[i]].saved == Some(stack[i]))
    && s.fibers[th.exec].saved == None
    && (forall i :: 0 < i < |stack| ==>
          Slot(s, t, stack[i]) == stack[i - 1] && s.fibers[stack[i]].self == Some(stack[i]))
    && (s.fibers[th.exec].inScheduler ==> th.current == th.exec)
    && !s.fibers[th.main].inScheduler && th.sched < |s.fibers| && !s.fibers[th.sched].inScheduler
  }

  ghost predicate On(stacks: seq<seq<FiberId>>, f: FiberId) {
    exists t :: 0 <= t < |stacks| && f in stacks[t]
  }

  /** A fiber that no thread has on its stack waits in its own context or has ended. */
  ghost predicate Parked(s: State, f: FiberId)
    requires f < |s.fibers|
  {
    && s.fibers[f].state != RUNNING
    && (s.fibers[f].state == READY ==> s.fibers[f].saved == Some(f) && s.fibers[f].self in {None, Some(f)})
  }

  ghost predicate AllStacked(s: State, stacks: seq<seq<FiberId>>) {
    |stacks| == |s.threads| && forall t :: 0 <= t < |stacks| ==> Stacked(s, t, stacks[t])
  }

  /** No fiber is on two stacks, or twice on one. */
  ghost predicate Apart(stacks: seq<seq<FiberId>>) {
    && (forall t, i, j :: 0 <= t < |stacks| && 0 <= i < j < |stacks[t]| ==> stacks[t][i] != stacks[t][j])
    && (forall t, u, f :: 0 <= t < |stacks| && 0 <= u < |stacks| && t != u && f in stacks[t] ==> f !in stacks[u])
  }

  ghost predicate AllParked(s: State, stacks: seq<seq<FiberId>>) {
    forall f :: 0 <= f < |s.fibers| && !On(stacks, f) ==> Parked(s, f)
  }

  ghost predicate Inv(s: State, stacks: seq<seq<FiberId>>) {
    Closed(s) && !s.bad && AllStacked(s, stacks) && Apart(stacks) && AllParked(s, stacks)
  }

  /** Threads start in their main fibers; the caller thread's scheduling fiber is a fiber of its own, not yet
      entered. */
  ghost predicate Starts(s: State) {
    && Closed(s) && !s.bad
    && (forall t :: 0 <= t < |s.threads| ==>
          var th := s.threads[t];
          && th.exec == th.current == th.main
          && s.fibers[th.main] == Fiber(RUNNING, false, None, None)
          && !s.fibers[th.sched].inScheduler
          && (th.sched != th.main ==> s.fibers[th.sched] == Fiber(READY, false, Some(th.sched), None)))
    && (forall t, u :: 0 <= t < u < |s.threads| ==> s.threads[t].main != s.threads[u].main)
    && (forall f :: 0 <= f < |s.fibers| ==>
          (exists t :: 0 <= t < |s.threads| && s.threads[t].main == f)
          || (s.fibers[f].state == READY && s.fibers[f].saved == Some(f) && s.fibers[f].self == None))
  }

  function Mains(s: State): (r: seq<seq<FiberId>>)
    ensures |r| == |s.threads| && forall t :: 0 <= t < |r| ==> r[t] == [s.threads[t].main]
  {
    seq(|s.threads|, t requires 0 <= t < |s.threads| => [s.threads[t].main])
  }

  lemma StartKeepsInv(s: State)
    requires Starts(s)
    ensures Inv(s, Mains(s))
  {
    var stacks := Mains(s);
    forall t | 0 <= t < |stacks|
      ensures Stacked(s, t, stacks[t])
    {
      assert stacks[t] == [s.threads[t].main];
    }
    StartParked(s);
  }

  lemma StartParked(s: State)
    requires Starts(s)
    ensures AllParked(s, Mains(s))
  {
    hide Closed;
    var stacks := Mains(s);
    assert forall t :: 0 <= t < |s.threads| ==> s.threads[t].main in stacks[t];
  }

  // ---------------------------------------------------------------- what each switch does

  /** A disciplined Resume on a state that keeps the invariant: control goes to `f`, and the resumer's continuation
      goes to the resumer's own context. */
  function Switched(s: State, t: nat, f: FiberId): State
    requires t < |s.threads| && f < |s.fibers| && s.threads[t].exec < |s.fibers|
  {
    var th := s.threads[t];
    var fs := s.fibers[th.exec := s.fibers[th.exec].(saved := Some(th.exec))];
    s.(fibers := fs[f := fs[f].(state := RUNNING, saved := None, self := Some(f))],
       threads := s.threads[t := th.(current := f, exec := f)])
  }

  lemma ResumeEffect(s: State, stacks: seq<seq<FiberId>>, t: nat, f: FiberId)
    requires Inv(s, stacks) && Disciplined(s, Resume(t, f))
    ensures !On(stacks, f) && s.threads[t].exec == Slot(s, t, f)
    ensures Apply(s, Resume(t, f)) == Switched(s, t, f)
  {
    OffStack(s, stacks, f);
    assert Stacked(s, t, stacks[t]);
    assert Parked(s, f);
  }

  /** Resume's ASSERT, when the right code calls it: it fails exactly on a fiber that is not READY. */
  lemma ResumeAsserts(s: State, stacks: seq<seq<FiberId>>, t: nat, f: FiberId)
    requires Inv(s, stacks) && Named(s, Resume(t, f))
    requires if s.fibers[f].inScheduler then s.threads[t].exec == s.threads[t].sched
             else f == s.threads[t].sched && s.threads[t].exec == s.threads[t].main
    ensures Apply(s, Resume(t, f)).bad <==> s.fibers[f].state != READY
  {
    if s.fibers[f].state == READY {
      ResumeEffect(s, stacks, t, f);
    }
  }

  /** Only running fibers are on a stack. */
  lemma OffStack(s: State, stacks: seq<seq<FiberId>>, f: FiberId)
    requires Inv(s, stacks) && f < |s.fibers| && s.fibers[f].state != RUNNING
    ensures !On(stacks, f)
  {
    forall t | 0 <= t < |stacks|
      ensures f !in stacks[t]
    {
      assert Stacked(s, t, stacks[t]);
    }
  }

  /** A Yield or Finish: control goes back to `g`, and `f` waits in its own context or has ended. */
  function Back(s: State, t: nat, f: FiberId, g: FiberId, st: FiberState): State
    requires t < |s.threads| && f < |s.fibers| && g < |s.fibers|
  {
    var fs := s.fibers[f := s.fibers[f].(state := st, saved := Some(f))];
    s.(fibers := fs[g := fs[g].(saved := None)],
       threads := s.threads[t := s.threads[t].(current := s.threads[t].main, exec := g)])
  }

  lemma BackEffect(s: State, stacks: seq<seq<FiberId>>, t: nat, a: Action)
    requires Inv(s, stacks) && Disciplined(s, a) && (a == Yield(t) || a == Finish(t))
    ensures |stacks[t]| >= 2
    ensures Apply(s, a) == Back(s, t, s.threads[t].exec, stacks[t][|stacks[t]| - 2], if a.Yield? then READY else TERM)
  {
    var stack := stacks[t];
    var n := |stack|;
    assert Stacked(s, t, stack);
    assert n >= 2;
    var f, g := s.threads[t].exec, stack[n - 2];
    assert stack[n - 1] == f && Slot(s, t, f) == g && f != g;
    if a.Finish? {
      FinishEffect(s, t, f, g);
    }
  }

  lemma FinishEffect(s: State, t: nat, f: FiberId, g: FiberId)
    requires Closed(s) && t < |s.threads| && f == s.threads[t].exec
    requires Named(s, Finish(t)) && s.fibers[f].self == Some(f)
    requires g < |s.fibers| && f != g && Slot(s, t, f) == g && s.fibers[g].saved == Some(g)
    ensures Apply(s, Finish(t)) == Back(s, t, f, g, TERM)
  {
    var s1 := SetState(s, f, TERM);
    assert Slot(s1, t, f) == g;
    assert Apply(s, Finish(t)).fibers == Back(s, t, f, g, TERM).fibers;
  }

  /** The same, field by field. */
  lemma ResumeFields(s: State, stacks: seq<seq<FiberId>>, t: nat, f: FiberId)
    requires Inv(s, stacks) && Disciplined(s, Resume(t, f))
    ensures
      var s' := Apply(s, Resume(t, f));
      var g := s.threads[t].exec;
      && !s'.bad && |s'.threads| == |s.threads| && |s'.fibers| == |s.fibers|
      && s'.threads[t].exec == s'.threads[t].current == f
      && s'.threads[t].main == s.threads[t].main && s'.threads[t].sched == s.threads[t].sched
      && s'.fibers[f].state == RUNNING && s'.fibers[f].inScheduler == s.fibers[f].inScheduler
      && s'.fibers[g].saved == Some(g) && s'.fibers[g].state == RUNNING
      && (forall h :: 0 <= h < |s.fibers| && h != f && h != g ==> s'.fibers[h] == s.fibers[h])
      && (forall u :: 0 <= u < |s.threads| && u != t ==> s'.threads[u] == s.threads[u])
  {
    ResumeEffect(s, stacks, t, f);
    assert Stacked(s, t, stacks[t]);
    assert s.threads[t].exec in stacks[t];
  }

  lemma BackFields(s: State, stacks: seq<seq<FiberId>>, t: nat, a: Action)
    requires Inv(s, stacks) && Disciplined(s, a) && (a == Yield(t) || a == Finish(t))
    ensures |stacks[t]| >= 2
    ensures
      var s' := Apply(s, a);
      var f, g := s.threads[t].exec, stacks[t][|stacks[t]| - 2];
      && !s'.bad && |s'.threads| == |s.threads| && |s'.fibers| == |s.fibers| && g < |s.fibers|
      && s'.threads[t].exec == g && s'.threads[t].current == s.threads[t].main
      && s'.threads[t].main == s.threads[t].main && s'.threads[t].sched == s.threads[t].sched
      && s'.fibers[f].state == (if a.Finish? then TERM else READY) && s'.fibers[f].saved == Some(f)
      && s'.fibers[g].state == RUNNING
      && (forall h :: 0 <= h < |s.fibers| && h != f && h != g ==> s'.fibers[h] == s.fibers[h])
      && (forall u :: 0 <= u < |s.threads| && u != t ==> s'.threads[u] == s.threads[u])
  {
    hide Apply;
    BackEffect(s, stacks, t, a);
    assert Stacked(s, t, stacks[t]);
  }

  /** A new task fiber, and one that is used again, are READY with a context of their own and were never entered. */
  lemma NewFields(s: State, f: FiberId)
    requires Closed(s)
    ensures Apply(s, Create) == s.(fibers := s.fibers + [Fiber(READY, true, Some(|s.fibers|), None)])
    ensures Named(s, Reset(f)) ==> Apply(s, Reset(f)) == s.(fibers := s.fibers[f := Fiber(READY, true, Some(f), None)])
  {
  }

  // ---------------------------------------------------------------- every step keeps the invariant

  ghost predicate Untouched(s: State, s': State, stack: seq<FiberId>) {
    forall f :: f in stack ==> f < |s.fibers| && f < |s'.fibers| && s'.fibers[f] == s.fibers[f]
  }

  /** A stack none of whose fibers changed, on a thread that did not change. */
  lemma StackedElsewhere(s: State, s': State, u: nat, stack: seq<FiberId>)
    requires u < |s.threads| && |s'.threads| == |s.threads| && s'.threads[u] == s.threads[u] && Stacked(s, u, stack)
    requires |s'.fibers| >= |s.fibers| && Untouched(s, s', stack)
    requires forall f :: 0 <= f < |s.fibers| ==> s'.fibers[f].inScheduler == s.fibers[f].inScheduler
    ensures Stacked(s', u, stack)
  {
    assert forall i :: 0 <= i < |stack| ==> stack[i] in stack;
  }

  lemma PushedStack(s: State, stacks: seq<seq<FiberId>>, t: nat, f: FiberId)
    requires Inv(s, stacks) && Disciplined(s, Resume(t, f))
    ensures Stacked(Switched(s, t, f), t, stacks[t] + [f])
  {
    ResumeEffect(s, stacks, t, f);
    var stack, s' := stacks[t], Switched(s, t, f);
    assert Stacked(s, t, stack);
    assert f !in stack;
    forall i | 0 <= i < |stack| - 1
      ensures s'.fibers[stack[i]] == s.fibers[stack[i]]
    {
      assert stack[i] in stack && stack[i] != stack[|stack| - 1];
    }
    var top := stack + [f];
    forall i | 0 < i < |top|
      ensures Slot(s', t, top[i]) == top[i - 1] && s'.fibers[top[i]].self == Some(top[i])
    {
      if i < |stack| {
        assert top[i] == stack[i] && top[i] in stack;
      }
    }
  }

  lemma PoppedStack(s: State, t: nat, stack: seq<FiberId>, st: FiberState)
    requires t < |s.threads| && Stacked(s, t, stack) && |stack| >= 2
    requires forall i, j :: 0 <= i < j < |stack| ==> stack[i] != stack[j]
    ensures Stacked(Back(s, t, s.threads[t].exec, stack[|stack| - 2], st), t, Returned(stack))
  {
    var n := |stack|;
    var f, g := stack[n - 1], stack[n - 2];
    var s' := Back(s, t, f, g, st);
    var left := Returned(stack);
    assert Slot(s, t, f) == g && !s.fibers[g].inScheduler;
    assert forall i :: 0 <= i < |left| ==> left[i] == stack[i];
    BackFibers(s, t, f, g, st, left);
    forall i | 0 < i < |left|
      ensures Slot(s', t, left[i]) == left[i - 1] && s'.fibers[left[i]].self == Some(left[i])
    {
      assert Slot(s, t, stack[i]) == stack[i - 1];
    }
  }

  /** The fibers below `g` stay as they are, and `g` only gives up its context. */
  lemma BackFibers(s: State, t: nat, f: FiberId, g: FiberId, st: FiberState, left: seq<FiberId>)
    requires t < |s.threads| && f < |s.fibers| && g < |s.fibers| && f != g
    requires left != [] && left[|left| - 1] == g && forall i :: 0 <= i < |left| ==> left[i] < |s.fibers| && left[i] != f
    requires forall i :: 0 <= i < |left| - 1 ==> left[i] != g
    ensures
      var s' := Back(s, t, f, g, st);
      && (forall i :: 0 <= i < |left| - 1 ==> s'.fibers[left[i]] == s.fibers[left[i]])
      && s'.fibers[g] == s.fibers[g].(saved := None)
      && (forall h :: 0 <= h < |s.fibers| ==> s'.fibers[h].inScheduler == s.fibers[h].inScheduler)
  {
  }

  lemma PushApart(stacks: seq<seq<FiberId>>, t: nat, f: FiberId)
    requires Apart(stacks) && t < |stacks| && !On(stacks, f)
    ensures Apart(stacks[t := stacks[t] + [f]])
  {
    assert forall u :: 0 <= u < |stacks| ==> f !in stacks[u];
  }

  lemma PopApart(stacks: seq<seq<FiberId>>, t: nat)
    requires Apart(stacks) && t < |stacks|
    ensures Apart(stacks[t := Returned(stacks[t])])
  {
    assert forall f :: f in Returned(stacks[t]) ==> f in stacks[t];
  }

  /** A step that changes thread `t` and its stack only, and fibers that are on that stack before or after. */
  lemma OthersStacked(s: State, s': State, stacks: seq<seq<FiberId>>, t: nat, stack': seq<FiberId>)
    requires AllStacked(s, stacks) && t < |stacks| && IsStack(s', t, stack')
    requires |s'.threads| == |s.threads| && |s'.fibers| == |s.fibers|
    requires forall u :: 0 <= u < |s.threads| && u != t ==> s'.threads[u] == s.threads[u]
    requires forall f :: 0 <= f < |s.fibers| ==> s'.fibers[f].inScheduler == s.fibers[f].inScheduler
    requires forall u :: 0 <= u < |stacks| && u != t ==> Untouched(s, s', stacks[u])
    ensures AllStacked(s', stacks[t := stack'])
  {
    hide Stacked;
    forall u | 0 <= u < |stacks| && u != t
      ensures Stacked(s', u, stacks[u])
    {
      assert Stacked(s, u, stacks[u]);
      StackedElsewhere(s, s', u, stacks[u]);
    }
  }

  ghost predicate IsStack(s: State, t: nat, stack: seq<FiberId>) {
    t < |s.threads| && Stacked(s, t, stack)
  }

  lemma PushUntouched(s: State, stacks: seq<seq<FiberId>>, t: nat, f: FiberId)
    requires AllStacked(s, stacks) && Apart(stacks) && t < |stacks| && f < |s.fibers| && !On(stacks, f)
    requires s.threads[t].exec < |s.fibers| && s.threads[t].exec in stacks[t]
    ensures forall u :: 0 <= u < |stacks| && u != t ==> Untouched(s, Switched(s, t, f), stacks[u])
  {
    forall u | 0 <= u < |stacks| && u != t
      ensures Untouched(s, Switched(s, t, f), stacks[u])
    {
      assert Stacked(s, u, stacks[u]);
      assert f !in stacks[u];
    }
  }

  lemma PushKeepsInv(s: State, stacks: seq<seq<FiberId>>, t: nat, f: FiberId)
    requires Inv(s, stacks) && Disciplined(s, Resume(t, f))
    ensures Inv(Apply(s, Resume(t, f)), Called(stacks, Resume(t, f)))
  {
    hide Apply, AllParked, Slot, Apart, Untouched, Parked;
    ResumeEffect(s, stacks, t, f);
    PushedStack(s, stacks, t, f);
    PushApart(stacks, t, f);
    var s', stacks' := Switched(s, t, f), stacks[t := stacks[t] + [f]];
    assert s.threads[t].exec in stacks[t] by {
      assert Stacked(s, t, stacks[t]);
    }
    PushUntouched(s, stacks, t, f);
    OthersStacked(s, s', stacks, t, stacks'[t]);
    PushParked(s, stacks, t, f);
  }

  lemma PushParked(s: State, stacks: seq<seq<FiberId>>, t: nat, f: FiberId)
    requires AllParked(s, stacks) && AllStacked(s, stacks)
    requires t < |s.threads| && f < |s.fibers| && s.threads[t].exec < |s.fibers|
    ensures AllParked(Switched(s, t, f), stacks[t := stacks[t] + [f]])
  {
    var s', stacks' := Switched(s, t, f), stacks[t := stacks[t] + [f]];
    assert s.threads[t].exec in stacks[t] by {
      assert Stacked(s, t, stacks[t]);
    }
    forall h | 0 <= h < |s'.fibers| && !On(stacks', h)
      ensures Parked(s', h)
    {
      assert h !in stacks'[t];
      OnOther(stacks, stacks', t, h);
      assert Parked(s, h);
    }
  }

  /** Being on a stack, when only stack `t` changed. */
  lemma OnOther(stacks: seq<seq<FiberId>>, stacks': seq<seq<FiberId>>, t: nat, h: FiberId)
    requires t < |stacks| == |stacks'| && forall u :: 0 <= u < |stacks| && u != t ==> stacks'[u] == stacks[u]
    requires !On(stacks', h)
    ensures On(stacks, h) ==> h in stacks[t]
  {
  }

  lemma PopKeepsInv(s: State, stacks: seq<seq<FiberId>>, t: nat, a: Action)
    requires Inv(s, stacks) && Disciplined(s, a) && (a == Yield(t) || a == Finish(t))
    ensures Inv(Apply(s, a), Called(stacks, a))
  {
    BackEffect(s, stacks, t, a);
    var stack := stacks[t];
    assert Stacked(s, t, stack);
    var f, g := s.threads[t].exec, stack[|stack| - 2];
    BackKeepsInv(s, stacks, t, f, g, if a.Yield? then READY else TERM);
  }

  lemma BackKeepsInv(s: State, stacks: seq<seq<FiberId>>, t: nat, f: FiberId, g: FiberId, st: FiberState)
    requires Inv(s, stacks) && t < |stacks| && |stacks[t]| >= 2
    requires f == s.threads[t].exec && g == stacks[t][|stacks[t]| - 2]
    requires st != RUNNING && g < |s.fibers| && Stacked(s, t, stacks[t])
    ensures Inv(Back(s, t, f, g, st), stacks[t := Returned(stacks[t])])
  {
    hide AllParked, Slot;
    var s', stack := Back(s, t, f, g, st), stacks[t];
    PoppedStack(s, t, stack, st);
    PopApart(stacks, t);
    assert f in stack && g in stack;
    forall u | 0 <= u < |stacks| && u != t
      ensures Untouched(s, s', stacks[u])
    {
      assert Stacked(s, u, stacks[u]);
    }
    OthersStacked(s, s', stacks, t, Returned(stack));
    PopParked(s, stacks, t, f, g, st);
  }

  lemma PopParked(s: State, stacks: seq<seq<FiberId>>, t: nat, f: FiberId, g: FiberId, st: FiberState)
    requires AllParked(s, stacks) && t < |stacks| == |s.threads| && Stacked(s, t, stacks[t]) && |stacks[t]| >= 2
    requires f == s.threads[t].exec && g == stacks[t][|stacks[t]| - 2] && g < |s.fibers| && st != RUNNING
    ensures AllParked(Back(s, t, f, g, st), stacks[t := Returned(stacks[t])])
  {
    var s', stacks' := Back(s, t, f, g, st), stacks[t := Returned(stacks[t])];
    var stack, n := stacks[t], |stacks[t]|;
    assert stack == stacks'[t] + [f];
    assert g in stacks'[t] by {
      assert stacks'[t][n - 2] == g;
    }
    forall h | 0 <= h < |s'.fibers| && !On(stacks', h)
      ensures Parked(s', h)
    {
      OnOther(stacks, stacks', t, h);
      assert h !in stacks'[t];
      if h != f {
        assert h !in stack;
        assert Parked(s, h);
      } else {
        assert stack[n - 1] == f && s.fibers[f].self == Some(f);
      }
    }
  }

  lemma NewKeepsInv(s: State, stacks: seq<seq<FiberId>>, a: Action)
    requires Inv(s, stacks) && Disciplined(s, a) && (a.Create? || a.Reset?)
    ensures Inv(Apply(s, a), stacks)
  {
    var s' := Apply(s, a);
    if a.Reset? {
      OffStack(s, stacks, a.f);
    }
    forall u | 0 <= u < |stacks|
      ensures Stacked(s', u, stacks[u])
    {
      assert Stacked(s, u, stacks[u]);
      assert a.Reset? ==> a.f !in stacks[u];
      StackedElsewhere(s, s', u, stacks[u]);
    }
    forall h | 0 <= h < |s'.fibers| && !On(stacks, h)
      ensures Parked(s', h)
    {
      if h < |s.fibers| {
        assert Parked(s, h);
      }
    }
  }

  lemma StepKeepsInv(s: State, stacks: seq<seq<FiberId>>, a: Action)
    requires Inv(s, stacks) && Disciplined(s, a)
    ensures Inv(Apply(s, a), Called(stacks, a))
  {
    hide Apply, Disciplined, AllStacked, AllParked, Apart;
    match a
    case Resume(t, f) => PushKeepsInv(s, stacks, t, f);
    case Yield(t) => PopKeepsInv(s, stacks, t, a);
    case Finish(t) => PopKeepsInv(s, stacks, t, a);
    case _ => NewKeepsInv(s, stacks, a);
  }

  // ---------------------------------------------------------------- whole runs

  /** `ss` is a run: it starts in `ss[0]`, and each disciplined action leads to the next state. */
  ghost predicate Run(ss: seq<State>, acts: seq<Action>) {
    && |ss| == |acts| + 1
    && forall i :: 0 <= i < |acts| ==>
         Closed(ss[i]) && Disciplined(ss[i], acts[i]) && ss[i + 1] == Apply(ss[i], acts[i])
  }

  lemma RunPrefix(ss: seq<State>, acts: seq<Action>, n: nat)
    requires Run(ss, acts) && n <= |acts|
    ensures Run(ss[..n + 1], acts[..n])
  {
    var ss', acts' := ss[..n + 1], acts[..n];
    forall i | 0 <= i < n
      ensures Closed(ss'[i]) && Disciplined(ss'[i], acts'[i]) && ss'[i + 1] == Apply(ss'[i], acts'[i])
    {
      assert ss'[i] == ss[i] && acts'[i] == acts[i] && ss'[i + 1] == ss[i + 1];
    }
  }

  /** Every run is call and return: nothing goes bad, and each thread executes the top of the stack that the calls and
      returns so far have built. */
  lemma {:induction false} EveryRunIsCallAndReturn(ss: seq<State>, acts: seq<Action>)
    requires Run(ss, acts) && Starts(ss[0])
    ensures Inv(ss[|acts|], StacksAfter(Mains(ss[0]), acts))
  {
    if acts == [] {
      StartKeepsInv(ss[0]);
    } else {
      var n := |acts| - 1;
      RunPrefix(ss, acts, n);
      EveryRunIsCallAndReturn(ss[..n + 1], acts[..n]);
      StepKeepsInv(ss[n], StacksAfter(Mains(ss[0]), acts[..n]), acts[n]);
    }
  }

  /** What the invariant says of one state: a task that executes is named by t_fiber, each thread has at most one
      running task fiber, and a running fiber belongs to one thread. */
  lemma OneRunningTask(s: State, stacks: seq<seq<FiberId>>, t: nat)
    requires Inv(s, stacks) && t < |s.threads|
    ensures s.fibers[s.threads[t].exec].inScheduler ==> s.threads[t].current == s.threads[t].exec
    ensures forall f, g :: f in stacks[t] && g in stacks[t] ==>
              (s.fibers[f].inScheduler && s.fibers[g].inScheduler ==> f == g)
    ensures forall f :: 0 <= f < |s.fibers| && s.fibers[f].state == RUNNING ==> On(stacks, f)
  {
    var stack := stacks[t];
    assert Stacked(s, t, stack);
    forall f, g | f in stack && g in stack && s.fibers[f].inScheduler && s.fibers[g].inScheduler
      ensures f == g
    {
      var i :| 0 <= i < |stack| && stack[i] == f;
      var j :| 0 <= j < |stack| && stack[j] == g;
      assert i > 0 && j > 0;
      assert stack[i - 1] == Slot(s, t, f) == s.threads[t].sched == Slot(s, t, g) == stack[j - 1];
    }
  }

  ghost predicate OnThread(a: Action, t: nat) {
    !a.Create? && !a.Reset? && a.t == t
  }

  /** Other threads leave a thread's stack alone. */
  lemma {:induction false} QuietThread(stacks: seq<seq<FiberId>>, acts: seq<Action>, r: nat, t: nat)
    requires r <= |acts| && t < |stacks| && forall i :: r <= i < |acts| ==> !OnThread(acts[i], t)
    ensures StacksAfter(stacks, acts)[t] == StacksAfter(stacks, acts[..r])[t]
  {
    if r < |acts| {
      var n := |acts| - 1;
      QuietThread(stacks, acts[..n], r, t);
      assert acts[..n][..r] == acts[..r];
    } else {
      assert acts[..r] == acts;
    }
  }

  /** A fiber that yields or ends returns to the fiber that resumed it: the one that executed on thread `t` before the
      Resume. In between, anything may have happened that left the fiber on top of the thread's stack again. */
  lemma ReturnsToResumer(ss: seq<State>, acts: seq<Action>, r: nat, a: Action, t: nat, f: FiberId)
    requires Run(ss, acts) && Starts(ss[0]) && r < |acts| && acts[r] == Resume(t, f) && t < |ss[0].threads|
    requires Disciplined(ss[|acts|], a) && (a == Yield(t) || a == Finish(t)) && Closed(ss[|acts|])
    requires StacksAfter(Mains(ss[0]), acts)[t] == StacksAfter(Mains(ss[0]), acts[..r])[t] + [f]
    ensures t < |ss[r].threads| && t < |Apply(ss[|acts|], a).threads|
    ensures Apply(ss[|acts|], a).threads[t].exec == ss[r].threads[t].exec
  {
    hide Apply, Disciplined, Starts, Apart, AllParked, Closed, Called;
    var m := Mains(ss[0]);
    EveryRunIsCallAndReturn(ss, acts);
    RunPrefix(ss, acts, r);
    EveryRunIsCallAndReturn(ss[..r + 1], acts[..r]);
    BackEffect(ss[|acts|], StacksAfter(m, acts), t, a);
    assert Stacked(ss[r], t, StacksAfter(m, acts[..r])[t]);
  }

  /** In particular when the thread did nothing else: the fiber ran, and then it yielded or ended. */
  lemma RanAndReturned(ss: seq<State>, acts: seq<Action>, r: nat, a: Action, t: nat, f: FiberId)
    requires Run(ss, acts) && Starts(ss[0]) && r < |acts| && acts[r] == Resume(t, f) && t < |ss[0].threads|
    requires Disciplined(ss[|acts|], a) && (a == Yield(t) || a == Finish(t)) && Closed(ss[|acts|])
    requires forall i :: r < i < |acts| ==> !OnThread(acts[i], t)
    ensures t < |ss[r].threads| && t < |Apply(ss[|acts|], a).threads|
    ensures Apply(ss[|acts|], a).threads[t].exec == ss[r].threads[t].exec
  {
    hide Apply, Disciplined, Starts, Closed;
    var m := Mains(ss[0]);
    QuietThread(m, acts, r + 1, t);
    assert acts[..r + 1][..r] == acts[..r] && acts[..r + 1][r] == acts[r];
    ReturnsToResumer(ss, acts, r, a, t, f);
  }

  /** After the code on thread `t` resumes `g` and `g` yields: the code goes on, unnamed, and cannot yield. */
  ghost predicate LosesScheduler(s: State, t: nat, g: FiberId)
    requires Closed(s) && t < |s.threads| && g < |s.fibers|
  {
    var f := s.threads[t].exec;
    var s1 := Apply(s, Resume(t, g));
    && Closed(s1)
    && var s2 := Apply(s1, Yield(t));
    && s2.threads[t].exec == f && s2.threads[t].current != f
    && s2.threads[t].sched < |s2.fibers| && s2.fibers[s2.threads[t].sched].saved == None
    && f < |s2.fibers| && s2.fibers[f].inScheduler && DoYield(s2, t, f).bad
  }

  /** Why task code must not call Resume: when task `f` on thread `t` resumes task `g` and `g` yields, control does
      come back to `f`, but t_fiber no longer names it, and the scheduling fiber's context has been used up, so there is
      nothing left for `f` to return to. */
  lemma NestedResume(s: State, stacks: seq<seq<FiberId>>, t: nat, g: FiberId)
    requires Inv(s, stacks) && t < |s.threads| && g < |s.fibers|
    requires s.fibers[g].state == READY && s.fibers[g].inScheduler
    requires s.fibers[s.threads[t].exec].inScheduler
    ensures LosesScheduler(s, t, g)
  {
    hide LosesScheduler;
    OffStack(s, stacks, g);
    assert Stacked(s, t, stacks[t]);
    assert Parked(s, g);
    assert s.threads[t].exec in stacks[t];
    NestedEffect(s, t, s.threads[t].exec, g, s.threads[t].sched);
  }

  /** What is known of a thread on which task `f` executes and task `g` waits. */
  ghost predicate Nests(s: State, t: nat, f: FiberId, g: FiberId, d: FiberId) {
    && Closed(s) && t < |s.threads| && s.threads[t].exec == f && s.threads[t].sched == d && s.threads[t].main != f
    && g < |s.fibers| && d != f && d != g && f != g && s.fibers[f].inScheduler && s.fibers[f].state == RUNNING
    && s.fibers[g].state == READY && s.fibers[g].inScheduler
    && s.fibers[g].saved == Some(g) && s.fibers[g].self in {None, Some(g)}
  }

  /** The state after the nested Resume ... */
  lemma NestedFirst(s: State, t: nat, f: FiberId, g: FiberId, d: FiberId)
    requires Nests(s, t, f, g, d)
    ensures
      var s1 := Apply(s, Resume(t, g));
      && s1.fibers == s.fibers[g := Fiber(RUNNING, true, None, Some(g))][d := s.fibers[d].(saved := Some(f))]
      && s1.threads == s.threads[t := s.threads[t].(current := g, exec := g)]
      && Closed(s1)
  {
    var s1 := Apply(s, Resume(t, g));
    assert s1.fibers == s.fibers[g := Fiber(RUNNING, true, None, Some(g))][d := s.fibers[d].(saved := Some(f))];
    assert s1.threads == s.threads[t := s.threads[t].(current := g, exec := g)];
  }

  /** ... and after the Yield that follows. */
  lemma NestedEffect(s: State, t: nat, f: FiberId, g: FiberId, d: FiberId)
    requires Nests(s, t, f, g, d)
    ensures LosesScheduler(s, t, g)
  {
    NestedFirst(s, t, f, g, d);
    var s1 := Apply(s, Resume(t, g));
    var s2 := Apply(s1, Yield(t));
    assert s2.threads == s.threads[t := s.threads[t].(current := s.threads[t].main)];
  }
}
