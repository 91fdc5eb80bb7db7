/** TimerManager as the source writes it: the set, the flag and the timers are updated in place. Each method
    is proved to do to `View()` what the function of the same name in `Timers` does, which is one step of `TimerRuns`;
    `Replay` makes any sequence of calls such a run. The clock reading of a call is its parameter `now`. */
module TimerObject {
  import opened Sums
  import opened Timers
  import opened TimerRuns

  class TimerManager {
    var table: Table
    var timers: seq<Addr>
    var tickled: bool
    var previousUseTime: nat
    ghost var seen: Option<nat>
    ghost var notified: nat
    ghost var fired: seq<Fire>

    ghost function View(): TM
      reads this
    {
      TM(table, timers, tickled, previousUseTime, seen, notified, fired)
    }

    constructor (now: nat)
      ensures View() == Fresh(now)
    {
      table, timers, tickled, previousUseTime := map[], [], false, now;
      seen, notified, fired := None, 0, [];
    }

    /** OnTimerInsertedAtFront: the IO manager's override tickles an idle worker. */
    method OnTimerInsertedAtFront()
      modifies this`notified
      ensures notified == old(notified) + 1
    {
      notified := notified + 1;
    }

    /** AddTimer(val, lock) */
    method InsertAndNotify(a: Addr)
      requires Known(table, timers) && a in table
      modifies this`timers, this`tickled, this`notified
      ensures View() == Arm(old(View()), table, old(timers), a)
    {
      var p := Lower(table, timers, Key(table, a));
      timers := timers[..p] + [a] + timers[p..];
      var atFront := p == 0 && !tickled;
      assert p == 0 <==> timers[0] == a by {
        if p > 0 { assert Before(Key(table, timers[0]), Key(table, a)); }
      }
      if atFront {
        tickled := true;
      }
      if atFront {
        OnTimerInsertedAtFront();
      }
    }

    method AddTimer(a: Addr, ms: nat, cb: Option<CbId>, recurring: bool, now: nat)
      requires WellTyped(View()) && a !in table
      modifies this`table, this`timers, this`tickled, this`notified
      ensures View() == Timers.AddTimer(old(View()), a, ms, cb, recurring, now)
      ensures Apply(old(View()), OpAdd(a, ms, cb, recurring, now)) == Some(View())
    {
      table := table[a := Timer(now + ms, ms, recurring, cb, cb.Some?, now)];
      InsertAndNotify(a);
    }

    /** Timer::Cancel */
    method Cancel(a: Addr) returns (ok: bool)
      requires Integrity(View()) && a in table
      modifies this`table, this`timers
      ensures old(table[a].cb.Some?) ==> Find(old(table), old(timers), a).Some?
      ensures (View(), ok) == Timers.Cancel(old(View()), a)
      ensures Apply(old(View()), OpCancel(a)) == Some(View())
    {
      CancelKeeps(View(), a);
      if table[a].cb.Some? {
        var it := Find(table, timers, a);
        table := table[a := table[a].(cb := None)];
        assert it.Some?;                             // the erase is unchecked in the source
        timers := timers[..it.value] + timers[it.value + 1..];
        return true;
      }
      return false;
    }

    /** timers_.find(this), then erase if it is there. */
    method Erase(a: Addr) returns (found: bool)
      requires Known(table, timers) && a in table
      modifies this`timers
      ensures found == Find(table, old(timers), a).Some? && Known(table, timers)
      ensures timers == if found then Removed(old(timers), Find(table, old(timers), a).value) else old(timers)
    {
      var it := Find(table, timers, a);
      found := it.Some?;
      if found {
        RemovedKnown(table, timers, it.value);
        timers := timers[..it.value] + timers[it.value + 1..];
      }
    }

    /** Timer::Refresh */
    method Refresh(a: Addr, now: nat) returns (ok: bool)
      requires WellTyped(View()) && a in table
      modifies this`table, this`timers
      ensures (View(), ok) == Timers.Refresh(old(View()), a, now)
      ensures Apply(old(View()), OpRefresh(a, now)) == Some(View())
    {
      hide Lower, Find, Before, Sorted;
      if table[a].cb.None? {
        return false;
      }
      var found := Erase(a);
      if !found {
        return false;
      }
      table := table[a := table[a].(next := now + table[a].ms, start := now)];
      var p := Lower(table, timers, Key(table, a));
      timers := timers[..p] + [a] + timers[p..];
      return true;
    }

    /** Timer::reset */
    method Reset(a: Addr, ms: nat, fromNow: bool, now: nat) returns (ok: bool)
      requires WellTyped(View()) && a in table && table[a].ms <= table[a].next
      modifies this`table, this`timers, this`tickled, this`notified
      ensures View() == Timers.Reset(old(View()), a, ms, fromNow, now).0
      ensures ok == Timers.Reset(old(View()), a, ms, fromNow, now).1
      ensures Apply(old(View()), OpReset(a, ms, fromNow, now)) == Some(View())
    {
      hide Lower, Find, Before, Sorted;
      if ms == table[a].ms && !fromNow {
        return true;
      }
      if table[a].cb.None? {
        return false;
      }
      var found := Erase(a);
      if !found {
        return false;
      }
      MoveTo(a, ms, fromNow, now);
      return true;
    }

    /** The end of reset: the timer, now outside the set, gets its new key and goes back in. */
    method MoveTo(a: Addr, ms: nat, fromNow: bool, now: nat)
      requires Known(table, timers) && a in table && table[a].ms <= table[a].next
      modifies this`table, this`timers, this`tickled, this`notified
      ensures View() == Arm(old(View()), old(table)[a := Retimed(old(table)[a], ms, fromNow, now)], old(timers), a)
    {
      hide Lower, Before, Sorted;
      var start := if fromNow then now else table[a].next - table[a].ms;
      table := table[a := table[a].(ms := ms, next := start + ms, start := if fromNow then now else table[a].start)];
      InsertAndNotify(a);
    }

    method GetNextTimer(now: nat) returns (wait: Option<nat>)
      requires WellTyped(View())
      modifies this`tickled, this`seen, this`notified
      ensures (View(), wait) == Timers.GetNextTimer(old(View()), now)
      ensures Apply(old(View()), OpNext(now)) == Some(View())
    {
      tickled := false;
      notified := 0;
      if timers == [] {
        seen := None;
        return None;
      }
      var next := table[timers[0]].next;
      seen := Some(next);
      return Some(if now >= next then 0 else next - now);
    }

    method DetectClockRollover(now: nat) returns (rollover: bool)
      modifies this`previousUseTime
      ensures rollover == Rollover(old(previousUseTime), now) && previousUseTime == now
    {
      rollover := false;
      if now < previousUseTime && now < (previousUseTime - 3600000) % 0x1_0000_0000_0000_0000 {
        rollover := true;
      }
      previousUseTime := now;
    }

    /** The end of the expired range: lower_bound of a throw-away timer at `now`, then every timer with the
        same deadline. It does not depend on where the throw-away timer was allocated. */
    method ExpiredEnd(now: nat, scratch: Addr) returns (it: nat)
      requires Known(table, timers) && Sorted(table, timers)
      ensures it == Due(table, timers, now)
    {
      var key := Some((now, scratch));
      it := Lower(table, timers, key);
      ghost var p := it;
      while it < |timers| && table[timers[it]].next == now
        invariant p <= it <= |timers|
        invariant forall i :: 0 <= i < it ==> table[timers[i]].next <= now
      {
        it := it + 1;
      }
      if p < it < |timers| {
        assert Before(Key(table, timers[p]), Key(table, timers[it]));
      }
    }

    /** The loop over the expired timers. */
    method Expire(expired: seq<Addr>, now: nat)
      requires Known(table, timers) && Known(table, expired)
      modifies this`table, this`timers
      ensures (table, timers) == Rearm(old(table), old(timers), expired, now)
    {
      hide Lower, Before, Sorted;
      var i := 0;
      while i < |expired|
        invariant 0 <= i <= |expired|
        invariant Known(old(table), expired[..i])
        invariant (table, timers) == Rearm(old(table), old(timers), expired[..i], now)
      {
        var a := expired[i];
        assert expired[..i + 1][..i] == expired[..i] && expired[..i + 1][i] == a;
        if table[a].recurring {
          table := table[a := table[a].(next := now + table[a].ms, start := now)];
          var p := Lower(table, timers, Key(table, a));
          timers := timers[..p] + [a] + timers[p..];
        } else {
          table := table[a := table[a].(cb := None)];
        }
        i := i + 1;
      }
      assert expired[..i] == expired;
    }

    method ListExpiredCb(now: nat, scratch: Addr) returns (cbs: seq<Option<CbId>>)
      requires WellTyped(View()) && Sorted(table, timers)
      modifies this`table, this`timers, this`previousUseTime, this`fired
      ensures (View(), cbs) == ListExpired(old(View()), now)
      ensures Apply(old(View()), OpExpire(now)) == Some(View())
    {
      if timers == [] {
        return [];
      }
      var rollover := DetectClockRollover(now);
      var it;
      if rollover {
        it := |timers|;
      } else {
        it := ExpiredEnd(now, scratch);
      }
      var expired := timers[..it];
      cbs := Callbacks(table, expired);
      fired := fired + Fires(table, expired, now);
      timers := timers[it..];
      Expire(expired, now);
    }
  }

  /** The call that `op` names. `scratch` is where ListExpiredCb allocates its throw-away timer. */
  method Perform(tm: TimerManager, op: Op, scratch: Addr)
    requires Integrity(tm.View()) && Enabled(tm.View(), op)
    modifies tm
    ensures Apply(old(tm.View()), op) == Some(tm.View())
  {
    match op {
      case OpAdd(a, ms, cb, recurring, now) => tm.AddTimer(a, ms, cb, recurring, now);
      case OpCancel(a) => var ok := tm.Cancel(a);
      case OpRefresh(a, now) => var ok := tm.Refresh(a, now);
      case OpReset(a, ms, fromNow, now) =>
        ResetKeeps(tm.View(), a, ms, fromNow, now);
        var ok := tm.Reset(a, ms, fromNow, now);
      case OpNext(now) => var wait := tm.GetNextTimer(now);
      case OpExpire(now) => var cbs := tm.ListExpiredCb(now, scratch);
    }
  }

  /** Each call is possible when its turn comes: new timers get new addresses, the others exist. */
  ghost predicate Possible(m: TM, ops: seq<Op>)
    decreases |ops|
  {
    ops == [] ||
    (var n := |ops| - 1;
     Possible(m, ops[..n]) && (After(m, ops[..n]).Some? ==> Enabled(After(m, ops[..n]).value, ops[n])))
  }

  lemma PossiblePrefix(m: TM, ops: seq<Op>, i: nat)
    requires Possible(m, ops) && i <= |ops|
    ensures Possible(m, ops[..i])
    decreases |ops|
  {
    if i == |ops| {
      assert ops[..i] == ops;
    } else {
      var n := |ops| - 1;
      PossiblePrefix(m, ops[..n], i);
      assert ops[..n][..i] == ops[..i];
    }
  }

  /** Any sequence of possible calls on a new object, whatever the clock says, is a run: every call is defined, and all
      that is proved of runs holds of the object. */
  method Replay(ops: seq<Op>, now0: nat, scratch: Addr) returns (tm: TimerManager)
    requires Possible(Fresh(now0), ops)
    ensures fresh(tm) && Run(ops, tm.View(), now0) && Integrity(tm.View())
  {
    hide Integrity, Apply, Enabled;
    tm := new TimerManager(now0);
    FreshKeeps(now0);
    var i := 0;
    while i < |ops|
      invariant 0 <= i <= |ops| && fresh(tm)
      invariant Run(ops[..i], tm.View(), now0) && Integrity(tm.View())
    {
      PossiblePrefix(Fresh(now0), ops, i + 1);
      assert ops[..i + 1][..i] == ops[..i] && ops[..i + 1] == ops[..i] + [ops[i]];
      ghost var b := tm.View();
      Step(b, ops[i]);
      Perform(tm, ops[i], scratch);
      RunExtended(ops[..i], b, now0, ops[i], tm.View());
      i := i + 1;
    }
    assert ops[..i] == ops;
  }
}
