/** Runs that exist: the worker can leave Run, a fiber can be stranded by DelEvent, a descriptor can be closed while
    registered, and with two workers the assertion in the idle loop can fail. */
module RunWitnesses {
  import opened Sums
  import opened Tasks
  import opened IoManager
  import opened Protocol
  import opened WakeTokens
  import opened RunResults

  // ------------------------------------------------------------------ building runs

  /** `acts` is a legal run from `s0` to `s` without late submissions. */
  ghost predicate Reached(s0: State, acts: seq<Action>, s: State) {
    Legal(s0, acts) && After(s0, acts) == s && NoLateSubmit(s0, acts)
  }

  lemma Go(s0: State, acts: seq<Action>, s: State, a: Action) returns (more: seq<Action>, s': State)
    requires Reached(s0, acts, s) && Enabled(s, a) && OnTime(s, a)
    ensures more == acts + [a] && s' == Apply(s, a) && Reached(s0, more, s')
  {
    hide Enabled, Apply;
    more, s' := acts + [a], Apply(s, a);
    assert more[..|more| - 1] == acts && more[|more| - 1] == a;
  }

  /** What these runs look at: workers, queue, fibers, the context and kernel entry of descriptor 0. */
  datatype Scene = Scene(
    ws: seq<Worker>, ts: seq<Task>, ps: seq<Prog>, sts: seq<FiberState>, c: FdState, k: map<nat, Mask>, pending: int,
    active: int, infos: nat, lost: set<FiberId>, clobbered: set<nat>)

  function At(ws: seq<Worker>, w: nat, pc: Pc): seq<Worker>
    requires w < |ws|
  {
    ws[w := ws[w].(pc := pc)]
  }

  ghost predicate Shows(s: State, v: Scene) {
    && s.workers == v.ws && s.io.tasks == v.ts && s.progs == v.ps && s.states == v.sts
    && |s.progs| == |s.states| == |s.commits| == |s.dispatches| && |s.infos| == v.infos
    && |s.io.contexts| == 32 && s.io.contexts[0] == v.c && s.io.kernel == v.k && s.io.pending == v.pending
    && s.timers == [] && !s.stopping && s.active == v.active && s.lost == v.lost && s.clobbered == v.clobbered
  }

  // ------------------------------------------------------------------ single steps on scenes

  lemma SubmitOn(s: State, v: Scene, t: Task)
    requires Shows(s, v) && UserTask(t) && t.cb.Some?
    ensures Enabled(s, Submit(t)) && !s.stopping
    ensures Shows(Apply(s, Submit(t)), v.(ts := v.ts + [t]))
  {
  }

  lemma SpawnOn(s: State, v: Scene)
    requires Shows(s, v)
    ensures Enabled(s, SubmitFiber(None)) && !s.stopping
    ensures Shows(Apply(s, SubmitFiber(None)),
                  v.(ts := v.ts + [FiberTask(|v.ps|)], ps := v.ps + [Start], sts := v.sts + [READY]))
  {
  }

  /** The head of the queue goes to worker `w`. */
  lemma TakeOn(s: State, v: Scene, w: nat)
    requires Shows(s, v) && w < |v.ws| && v.ws[w].pc == Fetching && v.ts != [] && v.ts[0].thread.None?
    requires v.ts[0].fiber.Some? ==> v.ts[0].fiber.value < |v.sts| && v.sts[v.ts[0].fiber.value] == READY
    ensures Enabled(s, OnRun(w, Take(0)))
    ensures Shows(Apply(s, OnRun(w, Take(0))),
                  v.(ws := At(v.ws, w, Got(v.ts[0])), ts := v.ts[1..], active := v.active + 1))
  {
    assert IsPick(s.io.tasks, w, s.states, 0);
  }

  lemma ResumeCbOn(s: State, v: Scene, w: nat, id: nat)
    requires Shows(s, v) && w < |v.ws| && v.ws[w].pc == Got(CbTask(UserCb(id)))
    ensures Enabled(s, OnRun(w, Resume))
    ensures Shows(Apply(s, OnRun(w, Resume)),
                  v.(ws := At(v.ws, w, Running(|v.ps|)), ps := v.ps + [Code], sts := v.sts + [RUNNING]))
  {
  }

  lemma ResumeFiberOn(s: State, v: Scene, w: nat, f: FiberId)
    requires Shows(s, v) && w < |v.ws| && f < |v.ps| && v.ws[w].pc == Got(FiberTask(f)) && v.ps[f] == Start
    ensures Enabled(s, OnRun(w, Resume))
    ensures Shows(Apply(s, OnRun(w, Resume)),
                  v.(ws := At(v.ws, w, Running(f)), ps := v.ps[f := Code], sts := v.sts[f := RUNNING]))
  {
  }

  /** A step of the fiber on worker `w` that stays in its code and works on descriptor 0. */
  lemma IoOn(s: State, v: Scene, w: nat, f: FiberId, op: IoOp, c: FdState, k: map<nat, Mask>, d: int)
    requires Shows(s, v) && w < |v.ws| && v.ws[w].pc == Running(f) && f < |v.ps| && v.ps[f] == Code
    requires op.fd == 0 && IoOpEnabled(s.io, op)
    requires
      var io := IoOpApply(s.io, op, f);
      |io.contexts| == 32 && io.contexts[0] == c && io.kernel == k && io.pending == v.pending + d
    ensures Enabled(s, OnFiber(w, CodeIo(op)))
    ensures Shows(Apply(s, OnFiber(w, CodeIo(op))),
                  v.(ts := IoOpApply(s.io, op, f).tasks, c := c, k := k, pending := v.pending + d,
                     lost := v.lost + Dropped(s.io, op)))
  {
  }

  lemma LeaveOn(s: State, v: Scene, w: nat, f: FiberId, a: FiberStep)
    requires Shows(s, v) && w < |v.ws| && v.ws[w].pc == Running(f) && f < |v.ps|
    requires (a == End && v.ps[f] == Code) || (a == YieldWait && Waits(v.ps[f]))
    ensures Enabled(s, OnFiber(w, a))
    ensures Shows(Apply(s, OnFiber(w, a)),
                  v.(ws := At(v.ws, w, Ran), ps := if a == End then v.ps[f := Done] else v.ps,
                     sts := v.sts[f := if a == End then TERM else READY]))
  {
  }

  lemma FinishOn(s: State, v: Scene, w: nat)
    requires Shows(s, v) && w < |v.ws| && v.ws[w].pc == Ran
    ensures Enabled(s, OnRun(w, Finish))
    ensures Shows(Apply(s, OnRun(w, Finish)), v.(ws := At(v.ws, w, Fetching), active := v.active - 1))
  {
  }

  /** Worker `w` starts do_io on descriptor 0 without a timeout. */
  lemma BeginOn(s: State, v: Scene, w: nat, f: FiberId)
    requires Shows(s, v) && w < |v.ws| && v.ws[w].pc == Running(f) && f < |v.ps| && v.ps[f] == Code
    ensures Enabled(s, OnFiber(w, IoBegin(0, READ, None)))
    ensures Shows(Apply(s, OnFiber(w, IoBegin(0, READ, None))),
                  v.(ps := v.ps[f := IoArm(v.infos, None, 0, READ)], infos := v.infos + 1))
  {
  }

  const READ_ONLY := Mask(true, false)
  const BOTH := Mask(true, true)

  function Reads(f: FiberId): FdState {
    FdState(Holder(0, None, f), EMPTY, READ_ONLY)
  }

  lemma RegisterOn(s: State, v: Scene, w: nat, f: FiberId, info: nat)
    requires Shows(s, v) && w < |v.ws| && v.ws[w].pc == Running(f) && f < |v.ps|
    requires v.ps[f] == IoArm(info, None, 0, READ)
    requires v.c == FRESH_FD && v.k == map[]
    ensures Enabled(s, OnFiber(w, IoRegister(false)))
    ensures Shows(Apply(s, OnFiber(w, IoRegister(false))),
                  v.(ps := v.ps[f := IoWait(info, None, 0, READ)], c := Reads(f), k := map[0 := READ_ONLY],
                     pending := v.pending + 1))
  {
  }

  lemma InitShows(s0: State)
    requires Init(s0)
    ensures Reached(s0, [], s0)
    ensures Shows(s0, Scene(s0.workers, [], [], [], FRESH_FD, map[], 0, 0, 0, {}, {}))
  {
  }

  // ------------------------------------------------------------------ the worker leaves Run

  /** One worker at `pc`, nothing queued, armed or registered. */
  ghost predicate Quiet(s: State, pc: Pc, idleTerm: bool, stopping: bool) {
    && |s.workers| == 1 && s.workers[0] == Worker(pc, idleTerm, [], [])
    && s.io.tasks == [] && s.io.pending == 0 && s.timers == [] && s.active == 0 && s.stopping == stopping
  }

  lemma QuietStep(s: State, a: Action, pc: Pc, pc': Pc, i: nat)
    requires Quiet(s, pc, i >= 5, i >= 1)
    requires
      || (i == 0 && a == Stop && pc == pc' == Fetching)
      || (i == 1 && a == OnRun(0, TakeNone) && pc == Fetching && pc' == CheckTimers)
      || (i == 2 && a == OnIdle(0, ReadTimers) && pc == CheckTimers && pc' == CheckPending)
      || (i == 3 && a == OnIdle(0, ReadPending) && pc == CheckPending && pc' == CheckBase)
      || (i == 4 && a == OnIdle(0, ReadBase) && pc == CheckBase && pc' == IdleReturned)
      || (i == 5 && a == OnRun(0, IdleLeave) && pc == IdleReturned && pc' == Fetching)
      || (i == 6 && a == OnRun(0, TakeNone) && pc == Fetching && pc' == Exited)
    ensures Enabled(s, a) && Quiet(Apply(s, a), pc', i + 1 >= 5, i + 1 >= 1)
    ensures Apply(s, a).states == s.states && Apply(s, a).lost == s.lost
  {
  }

  /** Stop on a one-worker manager with nothing to do: the worker leaves Run. */
  lemma Leaves(s0: State, acts0: seq<Action>, s1: State) returns (acts: seq<Action>, s: State)
    requires Reached(s0, acts0, s1) && Quiet(s1, Fetching, false, false)
    ensures Reached(s0, acts, s) && Quiet(s, Exited, true, true) && s.states == s1.states && s.lost == s1.lost
  {
    hide Reached, Quiet, Enabled, Apply;
    var todo := [Stop, OnRun(0, TakeNone), OnIdle(0, ReadTimers), OnIdle(0, ReadPending), OnIdle(0, ReadBase),
                 OnRun(0, IdleLeave), OnRun(0, TakeNone)];
    var pcs := [Fetching, Fetching, CheckTimers, CheckPending, CheckBase, IdleReturned, Fetching, Exited];
    acts, s := acts0, s1;
    var i := 0;
    while i < |todo|
      invariant 0 <= i <= |todo| && Reached(s0, acts, s) && Quiet(s, pcs[i], i >= 5, i >= 1)
      invariant s.states == s1.states && s.lost == s1.lost
    {
      QuietStep(s, todo[i], pcs[i], pcs[i + 1], i);
      acts, s := Go(s0, acts, s, todo[i]);
      i := i + 1;
    }
  }

  lemma ExitIsReachable(s0: State) returns (acts: seq<Action>)
    requires Init(s0) && |s0.workers| == 1
    ensures Legal(s0, acts) && NoLateSubmit(s0, acts)
    ensures |After(s0, acts).workers| == 1 && After(s0, acts).workers[0].pc == Exited
  {
    InitShows(s0);
    var s;
    acts, s := Leaves(s0, [], s0);
  }

  // ------------------------------------------------------------------ a timer armed from outside is missed

  /** One worker at `pc`, nothing queued or registered, and perhaps a timer armed. */
  ghost predicate Hasty(s: State, pc: Pc, idleTerm: bool, stopping: bool, armed: nat) {
    && |s.workers| == 1 && s.workers[0] == Worker(pc, idleTerm, [], []) && |s.timers| == armed
    && s.io.tasks == [] && s.io.pending == 0 && s.active == 0 && s.stopping == stopping
  }

  lemma HastyStep(s: State, a: Action, pc: Pc, pc': Pc, i: nat)
    requires Hasty(s, pc, i >= 6, i >= 4, if i >= 3 then 1 else 0)
    requires
      || (i == 0 && a == OnRun(0, TakeNone) && pc == Fetching && pc' == CheckTimers)
      || (i == 1 && a == OnIdle(0, ReadTimers) && pc == CheckTimers && pc' == CheckPending)
      || (i == 2 && a == OutsideTimer(OpArm(0, 0, false)) && pc == pc' == CheckPending)
      || (i == 3 && a == Stop && pc == pc' == CheckPending)
      || (i == 4 && a == OnIdle(0, ReadPending) && pc == CheckPending && pc' == CheckBase)
      || (i == 5 && a == OnIdle(0, ReadBase) && pc == CheckBase && pc' == IdleReturned)
      || (i == 6 && a == OnRun(0, IdleLeave) && pc == IdleReturned && pc' == Fetching)
      || (i == 7 && a == OnRun(0, TakeNone) && pc == Fetching && pc' == Exited)
    ensures Enabled(s, a) && Hasty(Apply(s, a), pc', i + 1 >= 6, i + 1 >= 4, if i + 1 >= 3 then 1 else 0)
  {
  }

  lemma GoOn(s0: State, acts: seq<Action>, s: State, a: Action) returns (more: seq<Action>, s': State)
    requires Legal(s0, acts) && After(s0, acts) == s && Enabled(s, a)
    ensures more == acts + [a] && s' == Apply(s, a) && Legal(s0, more) && After(s0, more) == s'
  {
    hide Enabled, Apply;
    more, s' := acts + [a], Apply(s, a);
    assert more[..|more| - 1] == acts && more[|more| - 1] == a;
  }

  /** A timer armed by another thread between the worker's read of the timer set and its other reads is missed: the
      worker leaves Run with the timer armed. */
  lemma OutsideTimerIsMissed(s0: State) returns (acts: seq<Action>)
    requires Init(s0) && |s0.workers| == 1
    ensures Legal(s0, acts)
    ensures
      var s := After(s0, acts);
      |s.workers| == 1 && s.workers[0].pc == Exited && |s.timers| == 1
  {
    hide Enabled, Apply, Legal, After;
    var todo := [OnRun(0, TakeNone), OnIdle(0, ReadTimers), OutsideTimer(OpArm(0, 0, false)), Stop,
                 OnIdle(0, ReadPending), OnIdle(0, ReadBase), OnRun(0, IdleLeave), OnRun(0, TakeNone)];
    var pcs := [Fetching, CheckTimers, CheckPending, CheckPending, CheckPending, CheckBase, IdleReturned, Fetching,
                Exited];
    InitShows(s0);
    InitReached(s0);
    var s := s0;
    acts := [];
    var i := 0;
    while i < |todo|
      invariant 0 <= i <= |todo| && Legal(s0, acts) && After(s0, acts) == s
      invariant Hasty(s, pcs[i], i >= 6, i >= 4, if i >= 3 then 1 else 0)
    {
      HastyStep(s, todo[i], pcs[i], pcs[i + 1], i);
      acts, s := GoOn(s0, acts, s, todo[i]);
      i := i + 1;
    }
  }

  lemma InitReached(s0: State)
    ensures Legal(s0, []) && After(s0, []) == s0
  {
  }

  // ------------------------------------------------------------------ DelEvent strands a fiber

  /** A fiber is submitted and starts on the only worker. */
  lemma Spawns(s0: State) returns (acts: seq<Action>, s: State)
    requires Init(s0) && |s0.workers| == 1
    ensures Reached(s0, acts, s)
    ensures Shows(s, Scene(At(s0.workers, 0, Running(0)), [], [Code], [RUNNING], FRESH_FD, map[], 0, 1, 0, {}, {}))
  {
    hide Reached, Enabled, Apply, Shows;
    InitShows(s0);
    var v := Scene(s0.workers, [], [], [], FRESH_FD, map[], 0, 0, 0, {}, {});
    acts, s := [], s0;
    SpawnOn(s, v);
    acts, s := Go(s0, acts, s, SubmitFiber(None));
    assert v.ts + [FiberTask(0)] == [FiberTask(0)] && v.ps + [Start] == [Start] && v.sts + [READY] == [READY];
    v := v.(ts := [FiberTask(0)], ps := [Start], sts := [READY]);
    TakeOn(s, v, 0);
    acts, s := Go(s0, acts, s, OnRun(0, Take(0)));
    assert v.ts[1..] == [];
    v := v.(ws := At(v.ws, 0, Got(FiberTask(0))), ts := [], active := 1);
    ResumeFiberOn(s, v, 0, 0);
    acts, s := Go(s0, acts, s, OnRun(0, Resume));
    assert v.ps[0 := Code] == [Code] && v.sts[0 := RUNNING] == [RUNNING];
    v := v.(ws := At(v.ws, 0, Running(0)), ps := [Code], sts := [RUNNING]);
    assert v.ws == At(s0.workers, 0, Running(0));
  }

  /** It calls a hooked read of descriptor 0, which registers it. */
  lemma Registers(s0: State) returns (acts: seq<Action>, s: State)
    requires Init(s0) && |s0.workers| == 1
    ensures Reached(s0, acts, s)
    ensures Shows(s, Scene(At(s0.workers, 0, Running(0)), [], [IoWait(0, None, 0, READ)], [RUNNING], Reads(0),
                           map[0 := READ_ONLY], 1, 1, 1, {}, {}))
  {
    hide Reached, Enabled, Apply, Shows;
    acts, s := Spawns(s0);
    var v := Scene(At(s0.workers, 0, Running(0)), [], [Code], [RUNNING], FRESH_FD, map[], 0, 1, 0, {}, {});
    BeginOn(s, v, 0, 0);
    acts, s := Go(s0, acts, s, OnFiber(0, IoBegin(0, READ, None)));
    assert v.ps[0 := IoArm(0, None, 0, READ)] == [IoArm(0, None, 0, READ)];
    v := v.(ps := [IoArm(0, None, 0, READ)], infos := 1);
    RegisterOn(s, v, 0, 0, 0);
    acts, s := Go(s0, acts, s, OnFiber(0, IoRegister(false)));
    assert v.ps[0 := IoWait(0, None, 0, READ)] == [IoWait(0, None, 0, READ)];
    v := v.(ps := [IoWait(0, None, 0, READ)], c := Reads(0), k := map[0 := READ_ONLY], pending := 1);
  }

  /** And it suspends. */
  lemma Suspends(s0: State) returns (acts: seq<Action>, s: State)
    requires Init(s0) && |s0.workers| == 1
    ensures Reached(s0, acts, s)
    ensures Shows(s, Scene(s0.workers, [], [IoWait(0, None, 0, READ)], [READY], Reads(0),
                           map[0 := READ_ONLY], 1, 0, 1, {}, {}))
  {
    hide Reached, Enabled, Apply, Shows;
    acts, s := Registers(s0);
    var v := Scene(At(s0.workers, 0, Running(0)), [], [IoWait(0, None, 0, READ)], [RUNNING], Reads(0),
                   map[0 := READ_ONLY], 1, 1, 1, {}, {});
    LeaveOn(s, v, 0, 0, YieldWait);
    acts, s := Go(s0, acts, s, OnFiber(0, YieldWait));
    assert v.sts[0 := READY] == [READY];
    v := v.(ws := At(v.ws, 0, Ran), sts := [READY]);
    FinishOn(s, v, 0);
    acts, s := Go(s0, acts, s, OnRun(0, Finish));
    v := v.(ws := At(v.ws, 0, Fetching), active := 0);
    assert v.ws == s0.workers;
  }

  /** A callback is submitted and starts on worker 0. */
  lemma Starts(s0: State, acts0: seq<Action>, s1: State, v: Scene) returns (acts: seq<Action>, s: State)
    requires Reached(s0, acts0, s1) && Shows(s1, v) && |v.ws| > 0 && v.ws[0].pc == Fetching && v.ts == []
    ensures Reached(s0, acts, s)
    ensures Shows(s, v.(ws := At(v.ws, 0, Running(|v.ps|)), ps := v.ps + [Code], sts := v.sts + [RUNNING],
                        active := v.active + 1))
  {
    hide Reached, Enabled, Apply, Shows;
    var t := CbTask(UserCb(0));
    SubmitOn(s1, v, t);
    acts, s := Go(s0, acts0, s1, Submit(t));
    var v1 := v.(ts := [t]);
    TakeOn(s, v1, 0);
    acts, s := Go(s0, acts, s, OnRun(0, Take(0)));
    v1 := v1.(ws := At(v.ws, 0, Got(t)), ts := [], active := v.active + 1);
    ResumeCbOn(s, v1, 0, 0);
    acts, s := Go(s0, acts, s, OnRun(0, Resume));
    assert At(v1.ws, 0, Running(|v.ps|)) == At(v.ws, 0, Running(|v.ps|));
  }

  /** It ends, and the worker is back in Run. */
  lemma Ends(s0: State, acts0: seq<Action>, s1: State, v: Scene, f: FiberId) returns (acts: seq<Action>, s: State)
    requires Reached(s0, acts0, s1) && Shows(s1, v) && |v.ws| > 0 && f < |v.ps| && f < |v.sts|
    requires v.ws[0].pc == Running(f) && v.ps[f] == Code
    ensures Reached(s0, acts, s)
    ensures Shows(s, v.(ws := At(v.ws, 0, Fetching), ps := v.ps[f := Done], sts := v.sts[f := TERM],
                        active := v.active - 1))
  {
    hide Reached, Enabled, Apply, Shows;
    LeaveOn(s1, v, 0, f, End);
    acts, s := Go(s0, acts0, s1, OnFiber(0, End));
    var v1 := v.(ws := At(v.ws, 0, Ran), ps := v.ps[f := Done], sts := v.sts[f := TERM]);
    FinishOn(s, v1, 0);
    acts, s := Go(s0, acts, s, OnRun(0, Finish));
    assert At(v1.ws, 0, Fetching) == At(v.ws, 0, Fetching);
  }

  /** DelEvent on the registration that fiber 0 waits for. */
  lemma DelOn(s: State, v: Scene, f: FiberId)
    requires Shows(s, v) && |v.ws| > 0 && v.ws[0].pc == Running(f) && 0 < f < |v.ps| && v.ps[f] == Code
    requires v.c == Reads(0) && v.k == map[0 := READ_ONLY]
    ensures Enabled(s, OnFiber(0, CodeIo(OpDel(0, READ, false))))
    ensures Shows(Apply(s, OnFiber(0, CodeIo(OpDel(0, READ, false)))),
                  v.(c := FRESH_FD, k := map[], pending := v.pending - 1, lost := v.lost + {0}))
  {
    hide Enabled, Apply, Shows;
    var op := OpDel(0, READ, false);
    DelResult(s, v, op);
    IoOn(s, v, 0, f, op, FRESH_FD, map[], -1);
  }

  lemma DelResult(s: State, v: Scene, op: IoOp)
    requires Shows(s, v) && op == OpDel(0, READ, false) && v.c == Reads(0) && v.k == map[0 := READ_ONLY]
    ensures
      var io := DelEvent(s.io, 0, READ, false).0;
      && |io.contexts| == 32 && io.contexts[0] == FRESH_FD && io.kernel == map[] && io.pending == v.pending - 1
      && io.tasks == v.ts && Dropped(s.io, op) == {0}
  {
  }

  /** A one-worker manager can leave Run with a fiber still suspended: DelEvent removed what it waited for. */
  lemma ExitCanStrand(s0: State) returns (acts: seq<Action>)
    requires Init(s0) && |s0.workers| == 1
    ensures Legal(s0, acts) && NoLateSubmit(s0, acts)
    ensures
      var s := After(s0, acts);
      && |s.workers| == 1 && s.workers[0].pc == Exited
      && s.lost == {0} && |s.states| > 0 && s.states[0] == READY
  {
    var s;
    acts, s := Strands(s0);
    acts, s := Leaves(s0, acts, s);
  }

  lemma Strands(s0: State) returns (acts: seq<Action>, s: State)
    requires Init(s0) && |s0.workers| == 1
    ensures Reached(s0, acts, s) && Quiet(s, Fetching, false, false)
    ensures s.states == [READY, TERM] && s.lost == {0}
  {
    hide Reached, Enabled, Apply;
    acts, s := Suspends(s0);
    var p := IoWait(0, None, 0, READ);
    var v := Scene(s0.workers, [], [p], [READY], Reads(0), map[0 := READ_ONLY], 1, 0, 1, {}, {});
    acts, s := Starts(s0, acts, s, v);
    v := v.(ws := At(v.ws, 0, Running(1)), ps := [p, Code], sts := [READY, RUNNING], active := 1);
    DelOn(s, v, 1);
    acts, s := Go(s0, acts, s, OnFiber(0, CodeIo(OpDel(0, READ, false))));
    v := v.(c := FRESH_FD, k := map[], pending := 0, lost := {0});
    acts, s := Ends(s0, acts, s, v, 1);
    assert v.sts[1 := TERM] == [READY, TERM];
  }

  // ------------------------------------------------------------------ a descriptor closed while registered

  function Calls(id: nat): EventContext {
    EventContext(Some(0), None, Some(UserCb(id)))
  }

  /** AddEvent with a callback on descriptor 0: READ first, then WRITE. */
  lemma AddOn(s: State, v: Scene, f: FiberId, e: Event)
    requires Shows(s, v) && |v.ws| > 0 && v.ws[0].pc == Running(f) && f < |v.ps| && v.ps[f] == Code
    requires if e == READ then v.c == FRESH_FD && v.k == map[]
             else v.c == FdState(Calls(1), EMPTY, READ_ONLY) && v.k == map[0 := READ_ONLY]
    ensures Enabled(s, OnFiber(0, CodeIo(OpAdd(0, e, 1, false))))
    ensures Shows(Apply(s, OnFiber(0, CodeIo(OpAdd(0, e, 1, false)))),
                  v.(c := if e == READ then FdState(Calls(1), EMPTY, READ_ONLY) else FdState(Calls(1), Calls(1), BOTH),
                     k := map[0 := if e == READ then READ_ONLY else BOTH], pending := v.pending + 1))
  {
    hide Enabled, Apply, Shows;
    var op := OpAdd(0, e, 1, false);
    AddResult(s, v, e, f);
    IoOn(s, v, 0, f, op, if e == READ then FdState(Calls(1), EMPTY, READ_ONLY) else FdState(Calls(1), Calls(1), BOTH),
         map[0 := if e == READ then READ_ONLY else BOTH], 1);
    assert v.lost + {} == v.lost;
  }

  lemma AddResult(s: State, v: Scene, e: Event, f: FiberId)
    requires Shows(s, v)
    requires if e == READ then v.c == FRESH_FD && v.k == map[]
             else v.c == FdState(Calls(1), EMPTY, READ_ONLY) && v.k == map[0 := READ_ONLY]
    ensures MayAdd(s.io, 0, e)
    ensures
      var io := AddEvent(s.io, 0, e, Holder(0, Some(UserCb(1)), f), false).0;
      && |io.contexts| == 32 && io.pending == v.pending + 1 && io.tasks == v.ts
      && io.contexts[0] == (if e == READ then FdState(Calls(1), EMPTY, READ_ONLY)
         else FdState(Calls(1), Calls(1), BOTH))
      && io.kernel == map[0 := if e == READ then READ_ONLY else BOTH]
      && Dropped(s.io, OpAdd(0, e, 1, false)) == {}
  {
  }

  /** The two halves of close, with an epoll_ctl that fails in CancelAll. */
  lemma CloseOn(s: State, v: Scene, f: FiberId)
    requires Shows(s, v) && |v.ws| > 0 && v.ws[0].pc == Running(f) && f < |v.ps| && v.ps[f] == Code
    ensures Enabled(s, OnFiber(0, CloseCancel(0, true)))
    ensures Shows(Apply(s, OnFiber(0, CloseCancel(0, true))), v.(ps := v.ps[f := CloseNext(0)]))
  {
  }

  lemma CloseFdOn(s: State, v: Scene, f: FiberId)
    requires Shows(s, v) && |v.ws| > 0 && v.ws[0].pc == Running(f) && f < |v.ps| && v.ps[f] == CloseNext(0)
    requires v.k.Keys <= {0} && !v.c.events.None()
    ensures Enabled(s, OnFiber(0, CloseFd))
    ensures Shows(Apply(s, OnFiber(0, CloseFd)),
                  v.(ps := v.ps[f := Code], k := map[], clobbered := v.clobbered + {0}))
  {
  }

  /** close can leave its registration behind: CancelAll fails, the descriptor is closed, and the kernel and the context
      disagree from then on. */
  lemma CloseCanClobber(s0: State) returns (acts: seq<Action>)
    requires Init(s0)
    ensures Legal(s0, acts) && After(s0, acts).clobbered == {0} && Dead(After(s0, acts).io, 0)
  {
    var s;
    acts, s := Clobbers(s0);
  }

  lemma Clobbers(s0: State) returns (acts: seq<Action>, s: State)
    requires Init(s0)
    ensures Reached(s0, acts, s) && s.clobbered == {0} && Dead(s.io, 0)
  {
    hide Reached, Enabled, Apply;
    InitShows(s0);
    var v := Scene(s0.workers, [], [], [], FRESH_FD, map[], 0, 0, 0, {}, {});
    acts, s := Starts(s0, [], s0, v);
    v := v.(ws := At(v.ws, 0, Running(0)), ps := [Code], sts := [RUNNING], active := 1);
    AddOn(s, v, 0, READ);
    acts, s := Go(s0, acts, s, OnFiber(0, CodeIo(OpAdd(0, READ, 1, false))));
    v := v.(c := FdState(Calls(1), EMPTY, READ_ONLY), k := map[0 := READ_ONLY], pending := 1);
    CloseOn(s, v, 0);
    acts, s := Go(s0, acts, s, OnFiber(0, CloseCancel(0, true)));
    v := v.(ps := [CloseNext(0)]);
    CloseFdOn(s, v, 0);
    acts, s := Go(s0, acts, s, OnFiber(0, CloseFd));
  }

  // ------------------------------------------------------------------ two workers

  /** Worker 1 goes from Run into epoll_wait, because an event is registered. */
  lemma IdlesOn(s0: State, acts0: seq<Action>, s1: State, v: Scene) returns (acts: seq<Action>, s: State)
    requires Reached(s0, acts0, s1) && Shows(s1, v) && |v.ws| == 2 && v.ws[1] == Worker(Fetching, false, [], [])
    requires v.ts == [] && v.pending != 0
    ensures Reached(s0, acts, s) && Shows(s, v.(ws := At(v.ws, 1, Waiting)))
  {
    hide Reached;
    acts, s := Go(s0, acts0, s1, OnRun(1, TakeNone));
    acts, s := Go(s0, acts, s, OnIdle(1, ReadTimers));
    acts, s := Go(s0, acts, s, OnIdle(1, ReadPending));
    assert s.workers == At(v.ws, 1, Waiting);
  }

  /** It gets a report for descriptor 0, and no timer is due. */
  lemma ReportsOn(s0: State, acts0: seq<Action>, s1: State, v: Scene, r: Report) returns (acts: seq<Action>, s: State)
    requires Reached(s0, acts0, s1) && Shows(s1, v) && |v.ws| == 2 && v.ws[1] == Worker(Waiting, false, [], [])
    requires r.fd == 0 && v.k == map[0 := BOTH]
    ensures Reached(s0, acts, s)
    ensures Shows(s, v.(ws := v.ws[1 := Worker(Delivering, false, [], [r])]))
  {
    hide Reached;
    acts, s := Go(s0, acts0, s1, OnIdle(1, Wait([r])));
    assert s.timers[..0] == [] && s.timers[0..] + Recurring([]) == [];
    acts, s := Go(s0, acts, s, OnIdle(1, Expire(0, [])));
    assert CbsOf([]) == [];
    assert s.workers == v.ws[1 := Worker(Delivering, false, [], [r])];
  }

  /** CancelEvent of READ when both are registered. */
  lemma CancelOn(s: State, v: Scene, f: FiberId)
    requires Shows(s, v) && |v.ws| > 0 && v.ws[0].pc == Running(f) && f < |v.ps| && v.ps[f] == Code
    requires v.c == FdState(Calls(1), Calls(1), BOTH) && v.k == map[0 := BOTH]
    ensures Enabled(s, OnFiber(0, CodeIo(OpCancel(0, READ, false))))
    ensures
      var s' := Apply(s, OnFiber(0, CodeIo(OpCancel(0, READ, false))));
      && s'.workers == s.workers && s'.io.Events(0) == Mask(false, true) && s'.io.kernel == map[0 := Mask(false, true)]
  {
  }

  lemma Reports(s0: State, r: Report) returns (acts: seq<Action>, s: State, v: Scene)
    requires Init(s0) && |s0.workers| == 2 && r.fd == 0
    ensures Reached(s0, acts, s) && Shows(s, v) && |v.ws| == 2 && v.ws[0].pc == Running(0) && v.ps == [Code]
    ensures v.ws[1] == Worker(Delivering, false, [], [r])
    ensures v.c == FdState(Calls(1), Calls(1), BOTH) && v.k == map[0 := BOTH]
  {
    hide Reached, Enabled, Apply, Shows;
    InitShows(s0);
    v := Scene(s0.workers, [], [], [], FRESH_FD, map[], 0, 0, 0, {}, {});
    acts, s := Starts(s0, [], s0, v);
    assert v.ps + [Code] == [Code] && v.sts + [RUNNING] == [RUNNING];
    v := v.(ws := At(v.ws, 0, Running(0)), ps := [Code], sts := [RUNNING], active := 1);
    AddOn(s, v, 0, READ);
    acts, s := Go(s0, acts, s, OnFiber(0, CodeIo(OpAdd(0, READ, 1, false))));
    v := v.(c := FdState(Calls(1), EMPTY, READ_ONLY), k := map[0 := READ_ONLY], pending := 1);
    AddOn(s, v, 0, WRITE);
    acts, s := Go(s0, acts, s, OnFiber(0, CodeIo(OpAdd(0, WRITE, 1, false))));
    v := v.(c := FdState(Calls(1), Calls(1), BOTH), k := map[0 := BOTH], pending := 2);
    acts, s := IdlesOn(s0, acts, s, v);
    v := v.(ws := At(v.ws, 1, Waiting));
    acts, s := ReportsOn(s0, acts, s, v, r);
    v := v.(ws := v.ws[1 := Worker(Delivering, false, [], [r])]);
  }

  /** With two workers the assertion in TriggerEvent can fail: one worker has a report for both events, the other
      cancels READ before it is handled, and the iteration then triggers READ all the same. */
  lemma StaleReadinessAsserts(s0: State) returns (acts: seq<Action>)
    requires Init(s0) && |s0.workers| == 2
    ensures Legal(s0, acts)
    ensures
      var s := After(s0, acts);
      && |s.workers| == 2
      && var wk := s.workers[1];
         && wk.pc == Delivering && wk.cbs == [] && wk.reports == [Report(0, Ready(true, true, false))]
         && HandleChecked(s.io, 0, wk.reports[0].ready, false) == None
         && !Enabled(s, OnIdle(1, HandleReport(false)))
  {
    hide Apply, Legal, After, NoLateSubmit;
    var s, v;
    var r := Report(0, Ready(true, true, false));
    acts, s, v := Reports(s0, r);
    CancelOn(s, v, 0);
    acts, s := Go(s0, acts, s, OnFiber(0, CodeIo(OpCancel(0, READ, false))));
    StaleReport(s.io);
  }

  lemma StaleReport(io: Io)
    requires io.Events(0) == Mask(false, true) && io.kernel == map[0 := Mask(false, true)]
    ensures HandleChecked(io, 0, Ready(true, true, false), false) == None
    ensures !ReadyAsserts(io, 0, Ready(true, true, false), false)
  {
    AssertsExactly(io, 0, Ready(true, true, false), false);
  }
}
