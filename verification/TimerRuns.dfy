/** The timer manager over whole runs, for any clock readings. AddTimer and ListExpiredCb read the clock before they
    take the lock, so the readings of a run need not be in order even when the clock is. */
module TimerRuns {
  import opened Sums
  import opened Timers

  datatype Op =
    | OpAdd(a: Addr, ms: nat, cb: Option<CbId>, recurring: bool, now: nat)
    | OpCancel(a: Addr)
    | OpRefresh(a: Addr, now: nat)
    | OpReset(a: Addr, ms: nat, fromNow: bool, now: nat)
    | OpNext(now: nat)
    | OpExpire(now: nat)

  // ------------------------------------------------------------------ invariants

  /** A timer made with a callback is in the set exactly as long as it still has it. */
  ghost predicate Membership(m: TM) {
    forall a :: a in m.table ==>
      (if m.table[a].made then m.table[a].cb.Some? <==> a in m.order else m.table[a].cb.None?)
  }

  /** next_ - ms_ is the last arming time. */
  ghost predicate Arming(m: TM) {
    forall a :: a in m.table ==> m.table[a].next == m.table[a].start + m.table[a].ms
  }

  function Of(a: Addr): Fire -> nat { (f: Fire) => if f.a == a then 1 else 0 }

  /** A one-shot timer fires at most once, and not while it is armed. */
  ghost predicate Once(m: TM) {
    && (forall f :: f in m.fired ==> f.a in m.table)
    && (forall a :: a in m.table && !m.table[a].recurring ==>
          Sum(m.fired, Of(a)) + (if a in m.order then 1 else 0) <= 1)
  }

  /** What every call keeps, whatever the clock says. */
  ghost predicate Integrity(m: TM) {
    WellTyped(m) && Sorted(m.table, m.order) && Membership(m) && Arming(m) && Once(m)
  }

  /** As long as nobody was notified, no deadline is earlier than the one last seen. */
  ghost predicate Flag(m: TM)
    requires WellTyped(m)
  {
    && m.notified == (if m.tickled then 1 else 0)
    && (!m.tickled ==> forall a :: a in m.order ==> m.seen.Some? && m.seen.value <= m.table[a].next)
  }

  /** Nothing has fired before its deadline. */
  ghost predicate NeverEarly(m: TM) {
    forall f :: f in m.fired ==> f.deadline <= f.at
  }

  /** A new timer has a new address; the others exist. */
  predicate Enabled(m: TM, op: Op) {
    match op
    case OpAdd(a, _, _, _, _) => a !in m.table
    case OpCancel(a) => a in m.table
    case OpRefresh(a, _) => a in m.table
    case OpReset(a, _, _, _) => a in m.table
    case OpNext(_) => true
    case OpExpire(_) => true
  }

  /** The unchecked find-and-erase of Cancel is safe. */
  lemma CancelFinds(m: TM, a: Addr)
    requires WellTyped(m) && Sorted(m.table, m.order) && Membership(m) && a in m.table && m.table[a].cb.Some?
    ensures Find(m.table, m.order, a).Some? && m.order[Find(m.table, m.order, a).value] == a
  {
    FindFinds(m.table, m.order, a);
  }

  /** One call. None is undefined behaviour: a set element that is no timer, the erase of an iterator that find did
      not find, or an arming time `next_ - ms_` below zero. */
  function Apply(m: TM, op: Op): Option<TM>
    requires Enabled(m, op)
  {
    if !WellTyped(m) then None
    else match op
      case OpAdd(a, ms, cb, recurring, now) => Some(AddTimer(m, a, ms, cb, recurring, now))
      case OpCancel(a) =>
        if m.table[a].cb.Some? && Find(m.table, m.order, a).None? then None else Some(Cancel(m, a).0)
      case OpRefresh(a, now) => Some(Refresh(m, a, now).0)
      case OpReset(a, ms, fromNow, now) =>
        if m.table[a].ms > m.table[a].next then None else Some(Reset(m, a, ms, fromNow, now).0)
      case OpNext(now) => Some(GetNextTimer(m, now).0)
      case OpExpire(now) => Some(ListExpired(m, now).0)
  }

  // ------------------------------------------------------------------ arming

  lemma SortedHead(tb: Table, order: seq<Addr>, a: Addr)
    requires Known(tb, order) && Sorted(tb, order) && a in order
    ensures order[0] in order && tb[order[0]].next <= tb[a].next
  {
    var i :| 0 <= i < |order| && order[i] == a;
    if 0 < i { assert Before(Key(tb, order[0]), Key(tb, order[i])); }
  }

  /** Arming `a`, outside the set, through AddTimer(val, lock): the set stays in order. */
  lemma ArmSorted(m: TM, tb: Table, order: seq<Addr>, a: Addr)
    requires Known(tb, order) && Sorted(tb, order) && a in tb && a !in order
    ensures
      var m' := Arm(m, tb, order, a);
      && m'.table == tb && m'.fired == m.fired && WellTyped(m') && Sorted(tb, m'.order)
      && (forall x :: x in m'.order <==> x == a || x in order)
  {
    hide Lower, Before, Sorted;
    InsertSorted(tb, order, a);
  }

  /** And the flag stays right: a new front is notified. */
  lemma ArmFlag(m: TM, tb: Table, order: seq<Addr>, a: Addr)
    requires Known(tb, order) && Sorted(tb, order) && a in tb && a !in order
    requires m.notified == (if m.tickled then 1 else 0)
    requires !m.tickled ==> forall x :: x in order ==> m.seen.Some? && m.seen.value <= tb[x].next
    ensures WellTyped(Arm(m, tb, order, a)) && Flag(Arm(m, tb, order, a))
  {
    ArmSorted(m, tb, order, a);
    InsertSorted(tb, order, a);
    var m' := Arm(m, tb, order, a);
    if !m'.tickled {
      assert m'.order[0] != a;
      assert order[0] in order && m'.order[0] == order[0];
      SortedHead(tb, m'.order, a);
    }
  }

  lemma NeverFired(fired: seq<Fire>, a: Addr)
    requires forall f :: f in fired ==> f.a != a
    ensures Sum(fired, Of(a)) == 0
  {
    SumZero(fired, Of(a));
  }

  lemma AddKeeps(m: TM, a: Addr, ms: nat, cb: Option<CbId>, recurring: bool, now: nat)
    requires Integrity(m) && a !in m.table
    ensures Integrity(AddTimer(m, a, ms, cb, recurring, now))
    ensures Flag(m) ==> Flag(AddTimer(m, a, ms, cb, recurring, now))
  {
    hide Lower, Before, Sorted, Sum, Arm;
    var tb := m.table[a := Timer(now + ms, ms, recurring, cb, cb.Some?, now)];
    OutsideKeepsSorted(m.table, tb, m.order);
    ArmSorted(m, tb, m.order, a);
    if Flag(m) { ArmFlag(m, tb, m.order, a); }
    NeverFired(m.fired, a);
  }

  // ------------------------------------------------------------------ cancel, refresh, reset

  lemma CancelKeeps(m: TM, a: Addr)
    requires Integrity(m) && a in m.table
    ensures m.table[a].cb.Some? ==> Find(m.table, m.order, a).Some?
    ensures Integrity(Cancel(m, a).0)
    ensures Flag(m) ==> Flag(Cancel(m, a).0)
    ensures Cancel(m, a).1 <==> m.table[a].cb.Some?
    ensures Cancel(m, a).1 ==> a !in Cancel(m, a).0.order && Cancel(m, a).0.table[a].cb.None?
  {
    hide Lower, Before, Sorted, Sum;
    if m.table[a].cb.Some? {
      CancelFinds(m, a);
      var p := Find(m.table, m.order, a).value;
      RemoveSorted(m.table, m.order, p);
      OutsideKeepsSorted(m.table, m.table[a := m.table[a].(cb := None)], Removed(m.order, p));
    }
  }

  /** Moving one armed timer to another deadline. */
  lemma MoveKeeps(m: TM, m': TM, a: Addr)
    requires Integrity(m) && a in m.table && WellTyped(m') && Sorted(m'.table, m'.order)
    requires m'.fired == m.fired && m'.table.Keys == m.table.Keys
    requires forall x :: x in m.table && x != a ==> m'.table[x] == m.table[x]
    requires var t, t' := m.table[a], m'.table[a];
      t'.made == t.made && t'.cb == t.cb && t'.recurring == t.recurring && t'.next == t'.start + t'.ms
    requires forall x :: x in m'.order <==> x in m.order
    ensures Integrity(m')
  {
    hide Sorted, Sum;
  }

  /** The state after a refresh that finds its timer. */
  lemma RefreshIs(m: TM, a: Addr, now: nat) returns (order: seq<Addr>, tb: Table)
    requires WellTyped(m) && Sorted(m.table, m.order) && Membership(m) && a in m.table && m.table[a].cb.Some?
    ensures a in m.order && Known(m.table, order) && Sorted(m.table, order) && a !in order
    ensures forall x :: x in m.order <==> x == a || x in order
    ensures tb == m.table[a := m.table[a].(next := now + m.table[a].ms, start := now)]
    ensures Known(tb, order)
    ensures Refresh(m, a, now) == (m.(table := tb, order := Insert(tb, order, a)), true)
  {
    CancelFinds(m, a);
    var p := Find(m.table, m.order, a).value;
    RemoveSorted(m.table, m.order, p);
    order := Removed(m.order, p);
    tb := m.table[a := m.table[a].(next := now + m.table[a].ms, start := now)];
  }

  lemma RefreshKeeps(m: TM, a: Addr, now: nat)
    requires Integrity(m) && a in m.table
    ensures Integrity(Refresh(m, a, now).0)
    ensures Flag(m) ==> (Flag(Refresh(m, a, now).0) <==> Settled(m, OpRefresh(a, now)))
  {
    if m.table[a].cb.Some? {
      hide Refresh, Lower, Before, Sorted, Sum, Insert;
      var order, tb := RefreshIs(m, a, now);
      OutsideKeepsSorted(m.table, tb, order);
      InsertSorted(tb, order, a);
      MoveKeeps(m, Refresh(m, a, now).0, a);
    }
  }

  /** Refresh succeeds exactly on a timer that still has its callback, and then counts from now. */
  lemma RefreshResult(m: TM, a: Addr, now: nat)
    requires Integrity(m) && a in m.table
    ensures Refresh(m, a, now).1 <==> m.table[a].cb.Some?
    ensures Refresh(m, a, now).1 ==> Refresh(m, a, now).0.table[a].next == now + m.table[a].ms
  {
    if m.table[a].cb.Some? { CancelFinds(m, a); }
  }

  /** The state after a reset that moves its timer. */
  lemma ResetIs(m: TM, a: Addr, ms: nat, fromNow: bool, now: nat) returns (order: seq<Addr>, tb: Table)
    requires WellTyped(m) && Sorted(m.table, m.order) && Membership(m) && a in m.table && m.table[a].cb.Some?
    requires m.table[a].next == m.table[a].start + m.table[a].ms && !(ms == m.table[a].ms && !fromNow)
    ensures a in m.order && Known(m.table, order) && Sorted(m.table, order) && a !in order
    ensures forall x :: x in m.order <==> x == a || x in order
    ensures tb == m.table[a := Retimed(m.table[a], ms, fromNow, now)]
    ensures Known(tb, order)
    ensures Reset(m, a, ms, fromNow, now) == (Arm(m, tb, order, a), true)
  {
    CancelFinds(m, a);
    var p := Find(m.table, m.order, a).value;
    RemoveSorted(m.table, m.order, p);
    order := Removed(m.order, p);
    tb := m.table[a := Retimed(m.table[a], ms, fromNow, now)];
  }

  lemma ResetKeeps(m: TM, a: Addr, ms: nat, fromNow: bool, now: nat)
    requires Integrity(m) && a in m.table
    ensures m.table[a].ms <= m.table[a].next
    ensures Integrity(Reset(m, a, ms, fromNow, now).0)
    ensures Flag(m) ==> Flag(Reset(m, a, ms, fromNow, now).0)
  {
    assert m.table[a].next == m.table[a].start + m.table[a].ms;
    if !(ms == m.table[a].ms && !fromNow) && m.table[a].cb.Some? {
      hide Reset, Lower, Before, Sorted, Sum, Insert, Arm;
      var order, tb := ResetIs(m, a, ms, fromNow, now);
      OutsideKeepsSorted(m.table, tb, order);
      ArmSorted(m, tb, order, a);
      MoveKeeps(m, Arm(m, tb, order, a), a);
      if Flag(m) { ArmFlag(m, tb, order, a); }
    }
  }

  /** reset counts from now or from the last arming time; asking for the same period is always granted. */
  lemma ResetResult(m: TM, a: Addr, ms: nat, fromNow: bool, now: nat)
    requires Integrity(m) && a in m.table
    ensures Reset(m, a, ms, fromNow, now).1 <==> m.table[a].cb.Some? || (ms == m.table[a].ms && !fromNow)
    ensures
      var (m', ok) := Reset(m, a, ms, fromNow, now);
      ok ==> a in m'.table && m'.table[a].ms == ms
             && m'.table[a].next == (if fromNow then now else m.table[a].start) + ms
  {
    assert m.table[a].next == m.table[a].start + m.table[a].ms;
    if m.table[a].cb.Some? { CancelFinds(m, a); }
  }

  // ------------------------------------------------------------------ the next deadline

  /** GetNextTimer makes the flag right whatever it was before. */
  lemma NextKeeps(m: TM, now: nat)
    requires Integrity(m)
    ensures Integrity(GetNextTimer(m, now).0) && Flag(GetNextTimer(m, now).0)
    ensures GetNextTimer(m, now).1.None? <==> m.order == []
    ensures GetNextTimer(m, now).1.Some? ==>
      var d := GetNextTimer(m, now).1.value;
      && (forall a :: a in m.order ==> d == 0 || now + d <= m.table[a].next)
      && (exists a :: a in m.order && (m.table[a].next == now + d || (d == 0 && m.table[a].next <= now)))
  {
    hide Sum;
    if m.order != [] {
      assert m.order[0] in m.order;
      forall a | a in m.order
        ensures m.table[m.order[0]].next <= m.table[a].next
      {
        SortedHead(m.table, m.order, a);
      }
    }
  }

  // ------------------------------------------------------------------ expiry

  /** A rollover is a step back of more than an hour; early after boot any step back is one. */
  lemma RolloverExactly(prev: nat, now: nat)
    requires prev < 0x1_0000_0000_0000_0000
    ensures Rollover(prev, now) <==> now < prev && (prev < 3600000 || now < prev - 3600000)
  {
    if prev < 3600000 {
      assert (prev - 3600000) % 0x1_0000_0000_0000_0000 == prev - 3600000 + 0x1_0000_0000_0000_0000;
    } else {
      assert (prev - 3600000) % 0x1_0000_0000_0000_0000 == prev - 3600000;
    }
  }

  ghost predicate Distinct(xs: seq<Addr>) { forall i, j :: 0 <= i < j < |xs| ==> xs[i] != xs[j] }

  /** What an expiry leaves of a timer. */
  function Spent(t: Timer, now: nat): Timer {
    if t.recurring then t.(next := now + t.ms, start := now) else t.(cb := None)
  }

  /** What the loop over `xs` has done to the table and the set it started from. */
  ghost predicate Rearmed(tb: Table, order: seq<Addr>, xs: seq<Addr>, now: nat, tb': Table, order': seq<Addr>)
    requires Known(tb, order) && Known(tb, xs)
  {
    && tb'.Keys == tb.Keys && Known(tb', order') && Sorted(tb', order')
    && (forall x :: x in order' <==> x in order || (x in xs && tb[x].recurring))
    && (forall x :: x in tb && x !in xs ==> tb'[x] == tb[x])
    && (forall x :: x in xs ==> tb'[x] == Spent(tb[x], now))
  }

  /** One timer more. */
  lemma RearmRecurring(tb: Table, order: seq<Addr>, xs: seq<Addr>, now: nat, tb1: Table, order1: seq<Addr>, a: Addr)
    requires Known(tb, order) && Known(tb, xs + [a]) && Known(tb, xs) && Rearmed(tb, order, xs, now, tb1, order1)
    requires a !in xs && a !in order && a in tb && tb[a].recurring
    ensures var tb2 := tb1[a := Spent(tb[a], now)];
            Known(tb2, order1) && Rearmed(tb, order, xs + [a], now, tb2, Insert(tb2, order1, a))
  {
    hide Insert, Lower;
    var tb2 := tb1[a := Spent(tb[a], now)];
    OutsideKeepsSorted(tb1, tb2, order1);
    InsertSorted(tb2, order1, a);
  }

  lemma RearmOneShot(tb: Table, order: seq<Addr>, xs: seq<Addr>, now: nat, tb1: Table, order1: seq<Addr>, a: Addr)
    requires Known(tb, order) && Known(tb, xs + [a]) && Known(tb, xs) && Rearmed(tb, order, xs, now, tb1, order1)
    requires a !in xs && a !in order && a in tb && !tb[a].recurring
    ensures Rearmed(tb, order, xs + [a], now, tb1[a := Spent(tb[a], now)], order1)
  {
    OutsideKeepsSorted(tb1, tb1[a := Spent(tb[a], now)], order1);
  }

  /** Rearm, unfolded once. */
  lemma RearmStep(tb: Table, order: seq<Addr>, xs: seq<Addr>, a: Addr, now: nat, tb1: Table, order1: seq<Addr>)
    requires Known(tb, order) && Known(tb, xs) && a in tb && Known(tb, xs + [a])
    requires Rearm(tb, order, xs, now) == (tb1, order1) && tb1[a] == tb[a]
    ensures var tb2 := tb1[a := Spent(tb[a], now)];
            && Known(tb2, order1)
            && Rearm(tb, order, xs + [a], now) == (tb2, if tb[a].recurring then Insert(tb2, order1, a) else order1)
  {
    hide Insert;
    var all := xs + [a];
    assert all[..|all| - 1] == xs && all[|all| - 1] == a;
  }

  lemma RearmNone(tb: Table, order: seq<Addr>, now: nat)
    requires Known(tb, order) && Sorted(tb, order) && Known(tb, [])
    ensures Rearmed(tb, order, [], now, tb, order)
  {
  }

  lemma {:induction false} RearmSpec(tb: Table, order: seq<Addr>, xs: seq<Addr>, now: nat)
    requires Known(tb, order) && Known(tb, xs) && Sorted(tb, order) && Distinct(xs)
    requires forall x :: x in xs ==> x !in order
    ensures var r := Rearm(tb, order, xs, now); Rearmed(tb, order, xs, now, r.0, r.1)
    decreases |xs|
  {
    hide Rearmed, Sorted, Insert;
    if xs == [] {
      RearmNone(tb, order, now);
    } else {
      hide Rearm;
      var n := |xs| - 1;
      var a, init := xs[n], xs[..n];
      assert xs == init + [a];
      RearmSpec(tb, order, init, now);
      var (tb1, order1) := Rearm(tb, order, init, now);
      RearmKeeps(tb, order, init, now, tb1, order1, a);
      RearmStep(tb, order, init, a, now, tb1, order1);
      if tb[a].recurring {
        RearmRecurring(tb, order, init, now, tb1, order1, a);
      } else {
        RearmOneShot(tb, order, init, now, tb1, order1, a);
      }
    }
  }

  lemma RearmKeeps(tb: Table, order: seq<Addr>, xs: seq<Addr>, now: nat, tb1: Table, order1: seq<Addr>, a: Addr)
    requires Known(tb, order) && Known(tb, xs) && Rearmed(tb, order, xs, now, tb1, order1) && a in tb && a !in xs
    ensures a in tb1 && tb1[a] == tb[a]
  {
  }

  lemma SortedDistinct(tb: Table, order: seq<Addr>, k: nat)
    requires Known(tb, order) && Sorted(tb, order) && k <= |order|
    ensures Distinct(order) && Distinct(order[..k])
    ensures forall x :: x in order[..k] ==> x !in order[k..]
    ensures Known(tb, order[k..]) && Sorted(tb, order[k..]) && Known(tb, order[..k])
    ensures forall x :: x in order <==> x in order[..k] || x in order[k..]
  {
    assert order == order[..k] + order[k..];
    forall i, j | 0 <= i < j < |order|
      ensures order[i] != order[j]
    {
      assert Before(Key(tb, order[i]), Key(tb, order[j]));
    }
  }

  /** In a sorted set the due prefix is exactly the due timers. */
  lemma DueExactly(tb: Table, order: seq<Addr>, now: nat, a: Addr)
    requires Known(tb, order) && Sorted(tb, order) && a in order
    ensures a in order[..Due(tb, order, now)] <==> tb[a].next <= now
  {
    hide Due;
    var k := Due(tb, order, now);
    var i :| 0 <= i < |order| && order[i] == a;
    if i < k {
      assert order[..k][i] == a;
    } else {
      LaterThan(tb, order, k, i, now);
      assert forall j :: 0 <= j < k ==> order[..k][j] == order[j] && tb[order[j]].next <= now;
    }
  }

  lemma LaterThan(tb: Table, order: seq<Addr>, k: nat, i: nat, now: nat)
    requires Known(tb, order) && Sorted(tb, order) && k <= i < |order| && tb[order[k]].next > now
    ensures tb[order[i]].next > now
  {
    if k < i {
      assert Before(Key(tb, order[k]), Key(tb, order[i]));
    }
  }

  lemma {:induction false} FiresCount(tb: Table, xs: seq<Addr>, now: nat, a: Addr)
    requires Known(tb, xs) && Distinct(xs)
    ensures Sum(Fires(tb, xs, now), Of(a)) == if a in xs then 1 else 0
  {
    if xs != [] {
      var n := |xs| - 1;
      assert xs == xs[..n] + [xs[n]];
      assert Fires(tb, xs, now)[..n] == Fires(tb, xs[..n], now);
      FiresCount(tb, xs[..n], now, a);
    }
  }

  lemma ExpireOnce(m: TM, now: nat, k: nat)
    requires WellTyped(m) && Sorted(m.table, m.order) && Once(m) && k <= |m.order|
    requires Known(m.table, m.order[..k]) && Known(m.table, m.order[k..])
    ensures
      var (tb, order) := Rearm(m.table, m.order[k..], m.order[..k], now);
      Once(m.(table := tb, order := order, prev := now, fired := m.fired + Fires(m.table, m.order[..k], now)))
  {
    hide Sorted, Rearm;
    SortedDistinct(m.table, m.order, k);
    RearmSpec(m.table, m.order[k..], m.order[..k], now);
    var fires := Fires(m.table, m.order[..k], now);
    forall a | a in m.table
      ensures Sum(m.fired + fires, Of(a)) == Sum(m.fired, Of(a)) + if a in m.order[..k] then 1 else 0
    {
      SumConcat(m.fired, fires, Of(a));
      FiresCount(m.table, m.order[..k], now, a);
    }
  }

  /** Re-arming the taken timers keeps membership and arming times. */
  lemma ExpireRest(m: TM, m': TM, now: nat, due: seq<Addr>, rest: seq<Addr>)
    requires WellTyped(m) && Membership(m) && Arming(m)
    requires Known(m.table, due) && Known(m.table, rest) && forall x :: x in m.order <==> x in due || x in rest
    requires forall x :: x in due ==> x !in rest
    requires Rearmed(m.table, rest, due, now, m'.table, m'.order)
    ensures WellTyped(m') && Sorted(m'.table, m'.order) && Membership(m') && Arming(m')
  {
    hide Sorted;
  }

  /** The flag stays right exactly when no recurring timer comes back before the deadline last seen. */
  lemma ExpireFlag(m: TM, m': TM, now: nat, due: seq<Addr>, rest: seq<Addr>)
    requires WellTyped(m) && Flag(m) && WellTyped(m')
    requires Known(m.table, due) && Known(m.table, rest) && forall x :: x in m.order <==> x in due || x in rest
    requires forall x :: x in due ==> x !in rest
    requires Rearmed(m.table, rest, due, now, m'.table, m'.order)
    requires m'.tickled == m.tickled && m'.notified == m.notified && m'.seen == m.seen
    ensures Flag(m') <==>
      m.tickled || forall a :: a in due && m.table[a].recurring ==> m.seen.Some? && m.seen.value <= now + m.table[a].ms
  {
    hide Sorted;
    forall a | a in due && m.table[a].recurring
      ensures a in m'.order && m'.table[a].next == now + m.table[a].ms
    {
    }
  }

  lemma ExpireKeeps(m: TM, now: nat)
    requires Integrity(m)
    ensures Integrity(ListExpired(m, now).0)
    ensures Flag(m) ==> (Flag(ListExpired(m, now).0) <==> Settled(m, OpExpire(now)))
  {
    if m.order != [] {
      hide Sorted, Rearm, Rearmed, Membership, Arming, Flag, Once, Taken;
      var k := Taken(m, now);
      SortedDistinct(m.table, m.order, k);
      ExpireOnce(m, now, k);
      RearmSpec(m.table, m.order[k..], m.order[..k], now);
      var m' := ListExpired(m, now).0;
      ExpireRest(m, m', now, m.order[..k], m.order[k..]);
      if Flag(m) { ExpireFlag(m, m', now, m.order[..k], m.order[k..]); }
    }
  }

  /** Each timer is taken once, in deadline order, and its callback is handed out. */
  lemma ExpiryInOrder(m: TM, now: nat)
    requires Integrity(m)
    ensures
      var cbs := ListExpired(m, now).1;
      var taken := m.order[..Taken(m, now)];
      && Distinct(taken) && |cbs| == |taken| && (forall i :: 0 <= i < |taken| ==> cbs[i] == m.table[taken[i]].cb)
      && (forall i, j :: 0 <= i < j < |taken| ==> m.table[taken[i]].next <= m.table[taken[j]].next)
  {
    if m.order != [] {
      var k := Taken(m, now);
      SortedDistinct(m.table, m.order, k);
      forall i, j | 0 <= i < j < k
        ensures m.table[m.order[i]].next <= m.table[m.order[j]].next
      {
        assert Before(Key(m.table, m.order[i]), Key(m.table, m.order[j]));
      }
    }
  }

  /** Expiry takes exactly the timers with deadline <= now. */
  ghost predicate TakesExactlyTheDue(m: TM, now: nat)
    requires WellTyped(m)
  {
    forall a :: a in m.order[..Taken(m, now)] <==> a in m.order && m.table[a].next <= now
  }

  /** For any reading: it does if and only if no rollover is detected, or every armed timer is due anyway. */
  lemma ExactUnlessRollover(m: TM, now: nat)
    requires WellTyped(m) && Sorted(m.table, m.order)
    ensures TakesExactlyTheDue(m, now) <==> ExactReading(m, now)
  {
    if m.order != [] {
      if Rollover(m.prev, now) {
        assert m.order[..Taken(m, now)] == m.order;
      } else {
        forall a | a in m.order
          ensures a in m.order[..Taken(m, now)] <==> m.table[a].next <= now
        {
          DueExactly(m.table, m.order, now, a);
        }
      }
    }
  }

  ghost predicate ExactReading(m: TM, now: nat)
    requires WellTyped(m)
  {
    !Rollover(m.prev, now) || forall a :: a in m.order ==> m.table[a].next <= now
  }

  /** The same in terms of the two readings: it goes wrong exactly for a step back of more than an hour, or of any
      length in the first hour, while some timer is not due. */
  lemma ExactForReadings(m: TM, now: nat)
    requires WellTyped(m) && Sorted(m.table, m.order) && m.prev < 0x1_0000_0000_0000_0000
    ensures TakesExactlyTheDue(m, now) <==>
            now >= m.prev || now >= m.prev - 3600000 >= 0 || forall a :: a in m.order ==> m.table[a].next <= now
  {
    ExactUnlessRollover(m, now);
    RolloverExactly(m.prev, now);
  }

  /** A taken one-shot timer is disarmed, a taken recurring one is armed again at now + ms, the others stay. */
  lemma ExpiryRearms(m: TM, now: nat)
    requires Integrity(m)
    ensures
      var m' := ListExpired(m, now).0;
      var taken := m.order[..Taken(m, now)];
      && m'.table.Keys == m.table.Keys
      && (forall a :: a in taken ==>
            m'.table[a] == Spent(m.table[a], now) && (a in m'.order <==> m.table[a].recurring))
      && (forall a :: a in m.table && a !in taken ==>
            m'.table[a] == m.table[a] && (a in m'.order <==> a in m.order))
  {
    if m.order != [] {
      var k := Taken(m, now);
      SortedDistinct(m.table, m.order, k);
      RearmSpec(m.table, m.order[k..], m.order[..k], now);
    }
  }

  /** Expiry fires nothing early if and only if it is exact. */
  lemma ExpiryNotEarly(m: TM, now: nat)
    requires Integrity(m)
    ensures NeverEarly(ListExpired(m, now).0) <==> NeverEarly(m) && ExactReading(m, now)
  {
    if m.order != [] {
      hide Sorted, Rearm, Sum, Once, Membership, Arming;
      var k := Taken(m, now);
      FiresOnTime(m.table, m.order[..k], now);
      TakenDue(m, now);
      var fires := Fires(m.table, m.order[..k], now);
      assert forall f :: f in m.fired + fires <==> f in m.fired || f in fires;
    }
  }

  lemma TakenDue(m: TM, now: nat)
    requires WellTyped(m) && Sorted(m.table, m.order) && m.order != []
    ensures (forall i :: 0 <= i < Taken(m, now) ==> m.table[m.order[i]].next <= now) <==> ExactReading(m, now)
  {
  }

  lemma FiresOnTime(tb: Table, xs: seq<Addr>, now: nat)
    requires Known(tb, xs)
    ensures (forall f :: f in Fires(tb, xs, now) ==> f.deadline <= f.at)
            <==> forall i :: 0 <= i < |xs| ==> tb[xs[i]].next <= now
  {
    var fires := Fires(tb, xs, now);
    assert forall i :: 0 <= i < |xs| ==> fires[i] in fires && fires[i] == Fire(xs[i], tb[xs[i]].next, now);
  }

  // ------------------------------------------------------------------ single calls

  /** The reading moves no deadline before the one last seen without notice: the condition for each call that re-arms
      without going through AddTimer. */
  ghost predicate Settled(m: TM, op: Op)
    requires WellTyped(m) && Enabled(m, op)
  {
    match op
    case OpRefresh(a, now) =>
      m.table[a].cb.None? || m.tickled || (m.seen.Some? && m.seen.value <= now + m.table[a].ms)
    case OpExpire(now) =>
      m.tickled || forall a :: a in m.order[..Taken(m, now)] && m.table[a].recurring ==>
        m.seen.Some? && m.seen.value <= now + m.table[a].ms
    case _ => true
  }

  /** Every call is defined and keeps the integrity of the set, whatever the clock says; the flag stays right if and
      only if the call is settled; and nothing fires early if and only if the call is no inexact expiry. */
  lemma Step(m: TM, op: Op)
    requires Integrity(m) && Enabled(m, op)
    ensures Apply(m, op).Some? && Integrity(Apply(m, op).value)
    ensures Flag(m) && !op.OpNext? ==> (Flag(Apply(m, op).value) <==> Settled(m, op))
    ensures op.OpNext? ==> Flag(Apply(m, op).value)
    ensures NeverEarly(Apply(m, op).value) <==> NeverEarly(m) && (op.OpExpire? ==> ExactReading(m, op.now))
  {
    hide Integrity, Flag, NeverEarly, ExactReading, AddTimer, Cancel, Refresh, Reset, ListExpired;
    assert WellTyped(m) by { IntegrityTypes(m); }
    match op
    case OpAdd(a, ms, cb, recurring, now) =>
      AddKeeps(m, a, ms, cb, recurring, now);
      SameFired(m, op);
    case OpCancel(a) =>
      CancelKeeps(m, a);
      SameFired(m, op);
    case OpRefresh(a, now) =>
      RefreshKeeps(m, a, now);
      SameFired(m, op);
    case OpReset(a, ms, fromNow, now) =>
      ResetKeeps(m, a, ms, fromNow, now);
      SameFired(m, op);
    case OpNext(now) =>
      NextKeeps(m, now);
      SameFired(m, op);
    case OpExpire(now) =>
      ExpireKeeps(m, now);
      ExpiryNotEarly(m, now);
  }

  lemma IntegrityTypes(m: TM)
    requires Integrity(m)
    ensures WellTyped(m)
  {
  }

  lemma SameFired(m: TM, op: Op)
    requires Enabled(m, op) && Apply(m, op).Some? && !op.OpExpire?
    ensures NeverEarly(Apply(m, op).value) <==> NeverEarly(m)
  {
  }

  // ------------------------------------------------------------------ whole runs

  function Fresh(now: nat): TM { TM(map[], [], false, now, None, 0, []) }

  /** The state after a sequence of calls; None if one of them was not possible, or not defined. */
  function After(m: TM, ops: seq<Op>): Option<TM>
    decreases |ops|
  {
    if ops == [] then Some(m)
    else
      var n := |ops| - 1;
      var b := After(m, ops[..n]);
      if b.None? || !Enabled(b.value, ops[n]) then None else Apply(b.value, ops[n])
  }

  ghost predicate Run(ops: seq<Op>, m: TM, now0: nat) {
    After(Fresh(now0), ops) == Some(m)
  }

  lemma {:induction false} AfterKeeps(m: TM, ops: seq<Op>, m': TM)
    requires Integrity(m) && After(m, ops) == Some(m')
    ensures Integrity(m')
    decreases |ops|
  {
    if ops != [] {
      hide Integrity, Apply, Enabled;
      var n := |ops| - 1;
      var b := After(m, ops[..n]).value;
      AfterKeeps(m, ops[..n], b);
      Step(b, ops[n]);
    }
  }

  lemma FreshKeeps(now: nat)
    ensures Integrity(Fresh(now)) && Flag(Fresh(now)) && NeverEarly(Fresh(now))
  {
  }

  /** Every run, for any clock readings: the set is strictly ordered, a callback is there exactly in members, next_ -
      ms_ is the last arming time, and a one-shot timer has fired at most once. */
  lemma EveryRunKeepsIntegrity(ops: seq<Op>, m: TM, now0: nat)
    requires Run(ops, m, now0)
    ensures Integrity(m)
  {
    FreshKeeps(now0);
    AfterKeeps(Fresh(now0), ops, m);
  }

  /** In every run the next call is defined: in particular the unchecked erase of Cancel finds its timer. */
  lemma NoCallIsUndefined(ops: seq<Op>, m: TM, now0: nat, op: Op)
    requires Run(ops, m, now0) && Enabled(m, op)
    ensures Apply(m, op).Some?
  {
    EveryRunKeepsIntegrity(ops, m, now0);
    Step(m, op);
  }

  /** The same, spelt out for one timer. */
  lemma FiresInEveryRun(ops: seq<Op>, m: TM, now0: nat, a: Addr)
    requires Run(ops, m, now0) && a in m.table
    ensures !m.table[a].recurring ==> Sum(m.fired, Of(a)) <= 1
    ensures m.table[a].made ==> (m.table[a].cb.Some? <==> a in m.order)
    ensures m.table[a].next == m.table[a].start + m.table[a].ms
  {
    EveryRunKeepsIntegrity(ops, m, now0);
  }

  /** Every expiry of the run was exact. */
  ghost predicate AllExact(m: TM, ops: seq<Op>)
    decreases |ops|
  {
    ops == [] ||
    (var n := |ops| - 1;
     && AllExact(m, ops[..n])
     && (ops[n].OpExpire? && After(m, ops[..n]).Some? && WellTyped(After(m, ops[..n]).value) ==>
           ExactReading(After(m, ops[..n]).value, ops[n].now)))
  }

  /** In a run nothing fires early if and only if every expiry of it was exact. */
  lemma {:induction false} NeverEarlyExactly(ops: seq<Op>, m: TM, now0: nat)
    requires Run(ops, m, now0)
    ensures NeverEarly(m) <==> AllExact(Fresh(now0), ops)
    decreases |ops|
  {
    if ops != [] {
      hide Apply, Enabled, NeverEarly, ExactReading;
      var n := |ops| - 1;
      var b := After(Fresh(now0), ops[..n]).value;
      NeverEarlyExactly(ops[..n], b, now0);
      EveryRunKeepsIntegrity(ops[..n], b, now0);
      Step(b, ops[n]);
    } else {
      FreshKeeps(now0);
    }
  }

  /** Readings in order, as far as it matters: a refresh does not read less than the timer's last arming time, and an
      expiry detects no rollover. */
  ghost predicate InOrder(m: TM, op: Op) {
    match op
    case OpRefresh(a, now) => a in m.table ==> m.table[a].start <= now
    case OpExpire(now) => !Rollover(m.prev, now)
    case _ => true
  }

  /** Such readings leave the flag right. */
  lemma InOrderSettles(m: TM, op: Op)
    requires Integrity(m) && Flag(m) && Enabled(m, op) && InOrder(m, op)
    ensures Settled(m, op)
  {
    if op.OpExpire? {
      forall a | a in m.order[..Taken(m, op.now)]
        ensures m.table[a].next <= op.now
      {
        var i :| 0 <= i < Taken(m, op.now) && m.order[..Taken(m, op.now)][i] == a;
        assert m.order[i] == a;
      }
    }
  }

  ghost predicate AllInOrder(m: TM, ops: seq<Op>)
    decreases |ops|
  {
    ops == [] ||
    (var n := |ops| - 1;
     AllInOrder(m, ops[..n]) && (After(m, ops[..n]).Some? ==> InOrder(After(m, ops[..n]).value, ops[n])))
  }

  lemma {:induction false} FlagInOrderlyRuns(ops: seq<Op>, m: TM, now0: nat)
    requires Run(ops, m, now0) && AllInOrder(Fresh(now0), ops)
    ensures Integrity(m) && Flag(m)
    decreases |ops|
  {
    EveryRunKeepsIntegrity(ops, m, now0);
    if ops != [] {
      hide Apply, Enabled, Flag, Integrity, InOrder, Settled;
      var n := |ops| - 1;
      var b := After(Fresh(now0), ops[..n]).value;
      FlagInOrderlyRuns(ops[..n], b, now0);
      Step(b, ops[n]);
      InOrderSettles(b, ops[n]);
    }
  }

  /** If some armed deadline is earlier than what the last GetNextTimer saw, the waiting thread has been
      notified since; and it is notified at most once per GetNextTimer. */
  lemma EarlierDeadlineWasNotified(ops: seq<Op>, m: TM, now0: nat, a: Addr)
    requires Run(ops, m, now0) && AllInOrder(Fresh(now0), ops) && a in m.order
    ensures m.notified <= 1 && a in m.table
    ensures (m.seen.None? || m.table[a].next < m.seen.value) ==> m.tickled && m.notified == 1
  {
    FlagInOrderlyRuns(ops, m, now0);
  }

  /** A timer without its callback (cancelled, or a one-shot that fired) never gets it back and never fires
      again. */
  lemma DeadStaysDead(m: TM, op: Op, a: Addr)
    requires Integrity(m) && Enabled(m, op) && a in m.table && m.table[a].made && m.table[a].cb.None?
    ensures Apply(m, op).Some?
    ensures
      var m' := Apply(m, op).value;
      a in m'.table && m'.table[a].made && m'.table[a].cb.None? && Sum(m'.fired, Of(a)) == Sum(m.fired, Of(a))
  {
    hide Sum, Sorted, Rearm;
    Step(m, op);
    if op.OpExpire? && m.order != [] {
      var k := Taken(m, op.now);
      SortedDistinct(m.table, m.order, k);
      RearmSpec(m.table, m.order[k..], m.order[..k], op.now);
      SumConcat(m.fired, Fires(m.table, m.order[..k], op.now), Of(a));
      FiresCount(m.table, m.order[..k], op.now, a);
    }
  }

  /** After Cancel returned true the timer never fires again, whatever else is done and whatever the clock says. */
  lemma {:induction false} NothingFiresAfterCancel(m: TM, a: Addr, ops: seq<Op>, m': TM)
    requires Integrity(m) && a in m.table && m.table[a].cb.Some?
    requires Find(m.table, m.order, a).Some? && Cancel(m, a).1 && After(Cancel(m, a).0, ops) == Some(m')
    ensures a in m'.table && m'.table[a].made && m'.table[a].cb.None? && Sum(m'.fired, Of(a)) == Sum(m.fired, Of(a))
    decreases |ops|
  {
    CancelKeeps(m, a);
    if ops != [] {
      hide Apply, Enabled, Cancel, Integrity;
      var n := |ops| - 1;
      var b := After(Cancel(m, a).0, ops[..n]).value;
      NothingFiresAfterCancel(m, a, ops[..n], b);
      AfterKeeps(Cancel(m, a).0, ops[..n], b);
      DeadStaysDead(b, ops[n], a);
    }
  }

  // ------------------------------------------------------------------ a perfect clock and several threads

  /** The clock reading of a call, if it takes one. */
  function Reading(op: Op): Option<nat> {
    match op
    case OpAdd(_, _, _, _, now) => Some(now)
    case OpCancel(_) => None
    case OpRefresh(_, now) => Some(now)
    case OpReset(_, _, _, now) => Some(now)
    case OpNext(now) => Some(now)
    case OpExpire(now) => Some(now)
  }

  /** `times` are the moments at which the calls have the lock, by a clock that does not go back. Every reading was
      taken by then; Refresh takes its reading under the lock, AddTimer and ListExpiredCb took theirs some time
      before. */
  ghost predicate Clocked(ops: seq<Op>, times: seq<nat>, now0: nat) {
    && |times| == |ops|
    && (forall i :: 0 <= i < |ops| && Reading(ops[i]).Some? ==> Reading(ops[i]).value <= times[i])
    && (forall i, j :: 0 <= i < j < |ops| ==> times[i] <= times[j])
    && (forall i :: 0 <= i < |ops| ==> now0 <= times[i])
    && (forall i, j :: 0 <= i < j < |ops| && ops[j].OpRefresh? ==> times[i] <= ops[j].now)
  }

  ghost predicate ArmedBy(m: TM, time: nat) {
    forall a :: a in m.table ==> m.table[a].start <= time
  }

  lemma ArmedStep(m: TM, op: Op, time: nat)
    requires Integrity(m) && ArmedBy(m, time) && Enabled(m, op) && Apply(m, op).Some?
    requires Reading(op).Some? ==> Reading(op).value <= time
    ensures ArmedBy(Apply(m, op).value, time)
  {
    hide Sorted, Lower, Find, Insert, Rearm, Sum, Once, Membership, Before;
    if op.OpExpire? { ExpiryRearms(m, op.now); }
  }

  lemma {:induction false} ArmedInPast(ops: seq<Op>, m: TM, now0: nat, time: nat)
    requires Run(ops, m, now0)
    requires forall i :: 0 <= i < |ops| && Reading(ops[i]).Some? ==> Reading(ops[i]).value <= time
    ensures ArmedBy(m, time)
    decreases |ops|
  {
    if ops != [] {
      hide Apply, Enabled, ArmedBy;
      var n := |ops| - 1;
      var b := After(Fresh(now0), ops[..n]).value;
      ArmedInPast(ops[..n], b, now0, time);
      EveryRunKeepsIntegrity(ops[..n], b, now0);
      ArmedStep(b, ops[n], time);
    }
  }

  /** No expiry of the run detects a rollover. */
  ghost predicate NoRollover(m: TM, ops: seq<Op>)
    decreases |ops|
  {
    ops == [] ||
    (var n := |ops| - 1;
     && NoRollover(m, ops[..n])
     && (ops[n].OpExpire? && After(m, ops[..n]).Some? ==> !Rollover(After(m, ops[..n]).value.prev, ops[n].now)))
  }

  /** With such a clock and any number of threads, the readings are in order if and only if no expiry detects a
      rollover. */
  lemma {:induction false} RealClockIsInOrder(ops: seq<Op>, times: seq<nat>, m: TM, now0: nat)
    requires Run(ops, m, now0) && Clocked(ops, times, now0)
    ensures AllInOrder(Fresh(now0), ops) <==> NoRollover(Fresh(now0), ops)
    decreases |ops|
  {
    if ops != [] {
      hide Apply, Enabled;
      var n := |ops| - 1;
      var b := After(Fresh(now0), ops[..n]).value;
      assert Clocked(ops[..n], times[..n], now0);
      RealClockIsInOrder(ops[..n], times[..n], b, now0);
      if ops[n].OpRefresh? {
        assert forall i :: 0 <= i < n ==> ops[..n][i] == ops[i];
        assert forall i :: 0 <= i < n && Reading(ops[i]).Some? ==> Reading(ops[i]).value <= times[i] <= ops[n].now;
        ArmedInPast(ops[..n], b, now0, ops[n].now);
      }
    }
  }

  /** Readings that never go back from one call to the next. */
  ghost predicate Monotone(ops: seq<Op>, now0: nat) {
    && (forall i :: 0 <= i < |ops| && Reading(ops[i]).Some? ==> now0 <= Reading(ops[i]).value)
    && (forall i, j :: 0 <= i < j < |ops| && Reading(ops[i]).Some? && Reading(ops[j]).Some? ==>
          Reading(ops[i]).value <= Reading(ops[j]).value)
  }

  lemma {:induction false} UsedInPast(ops: seq<Op>, m: TM, now0: nat, time: nat)
    requires Run(ops, m, now0) && now0 <= time
    requires forall i :: 0 <= i < |ops| && Reading(ops[i]).Some? ==> Reading(ops[i]).value <= time
    ensures m.prev <= time
    decreases |ops|
  {
    if ops != [] {
      hide Sorted, Lower, Find, Insert, Rearm, Taken;
      var n := |ops| - 1;
      UsedInPast(ops[..n], After(Fresh(now0), ops[..n]).value, now0, time);
    }
  }

  /** They are in order and every expiry is exact, so all of the above holds. */
  lemma {:induction false} MonotoneIsInOrder(ops: seq<Op>, m: TM, now0: nat)
    requires Run(ops, m, now0) && Monotone(ops, now0)
    ensures AllInOrder(Fresh(now0), ops) && NoRollover(Fresh(now0), ops) && AllExact(Fresh(now0), ops)
    decreases |ops|
  {
    if ops != [] {
      hide Apply, Enabled;
      var n := |ops| - 1;
      var b := After(Fresh(now0), ops[..n]).value;
      assert Monotone(ops[..n], now0);
      MonotoneIsInOrder(ops[..n], b, now0);
      if Reading(ops[n]).Some? {
        var now := Reading(ops[n]).value;
        assert forall i :: 0 <= i < n ==> ops[..n][i] == ops[i];
        ArmedInPast(ops[..n], b, now0, now);
        UsedInPast(ops[..n], b, now0, now);
      }
    }
  }

  // ------------------------------------------------------------------ readings that go back

  lemma RunExtended(ops: seq<Op>, b: TM, now0: nat, op: Op, m: TM)
    requires Run(ops, b, now0) && Enabled(b, op) && Apply(b, op) == Some(m)
    ensures Run(ops + [op], m, now0)
  {
    var more := ops + [op];
    assert more[..|more| - 1] == ops && more[|more| - 1] == op;
  }

  function HourTimer(start: nat, recurring: bool): Timer {
    Timer(start + 3600000, 3600000, recurring, Some(7), true, start)
  }

  function HourState(start: nat, recurring: bool): TM {
    TM(map[0 := HourTimer(start, recurring)], [0], false, start, Some(start + 3600000), 0, [])
  }

  /** Armed ... */
  lemma HourAdded(start: nat, recurring: bool)
    ensures
      var add := OpAdd(0, 3600000, Some(7), recurring, start);
      && Enabled(Fresh(start), add)
      && Apply(Fresh(start), add) == Some(HourState(start, recurring).(tickled := true, seen := None, notified := 1))
  {
    var m1 := HourState(start, recurring);
    assert Fresh(start).table[0 := HourTimer(start, recurring)] == m1.table && Insert(m1.table, [], 0) == [0];
  }

  /** ... and looked at. */
  lemma HourSeen(start: nat, recurring: bool)
    ensures
      var m1 := HourState(start, recurring).(tickled := true, seen := None, notified := 1);
      Enabled(m1, OpNext(start)) && Apply(m1, OpNext(start)) == Some(HourState(start, recurring))
  {
  }

  /** A timer armed for an hour at `start`, looked at, and an expiry at 1000 that takes nothing. */
  lemma HourTimerRun(start: nat, recurring: bool) returns (ops: seq<Op>, m: TM)
    requires start <= 1000
    ensures ops == [OpAdd(0, 3600000, Some(7), recurring, start), OpNext(start), OpExpire(1000)] && Run(ops, m, start)
    ensures m == HourState(start, recurring).(prev := 1000)
  {
    hide Run, Apply, After;
    var add := OpAdd(0, 3600000, Some(7), recurring, start);
    var m2 := HourState(start, recurring);
    var m1 := m2.(tickled := true, seen := None, notified := 1);
    HourAdded(start, recurring);
    RunStarts(start);
    RunExtended([], Fresh(start), start, add, m1);
    HourSeen(start, recurring);
    RunExtended([] + [add], m1, start, OpNext(start), m2);
    m := m2.(prev := 1000);
    HourWaits(m2);
    ops := [] + [add] + [OpNext(start)] + [OpExpire(1000)];
    RunExtended([] + [add] + [OpNext(start)], m2, start, OpExpire(1000), m);
  }

  lemma RunStarts(now0: nat)
    ensures Run([], Fresh(now0), now0)
  {
  }

  lemma HourWaits(m: TM)
    requires WellTyped(m) && m.order != [] && m.table[m.order[0]].next > 1000 >= m.prev
    ensures Enabled(m, OpExpire(1000)) && Apply(m, OpExpire(1000)) == Some(m.(prev := 1000))
  {
    NothingDue(m, 1000);
  }

  lemma NothingDue(m: TM, now: nat)
    requires WellTyped(m) && m.order != [] && m.table[m.order[0]].next > now >= m.prev
    ensures ListExpired(m, now) == (m.(prev := now), [])
  {
    assert Taken(m, now) == 0;
    var none := m.order[..0];
    assert none == [] && m.order[0..] == m.order;
    assert Rearm(m.table, m.order, none, now) == (m.table, m.order);
    assert Fires(m.table, none, now) == [] && m.fired + [] == m.fired && Callbacks(m.table, none) == [];
  }

  /** Then a second worker, which had read 999 before it waited for the lock: the timer fires an hour early, although
      the clock never went back. */
  lemma StepBackFiresEarly() returns (ops: seq<Op>, times: seq<nat>, m: TM)
    ensures Run(ops, m, 500) && WellTyped(m) && m.order == [0] && m.table[0].next == 3600500
    ensures Clocked(ops + [OpExpire(999)], times, 500)
    ensures ListExpired(m, 999).1 == [Some(7)] && !TakesExactlyTheDue(m, 999) && !NeverEarly(ListExpired(m, 999).0)
  {
    hide Run, Clocked;
    ops, m := HourTimerRun(500, false);
    times := HourClocked(500, false, 999, ops);
    EveryRunKeepsIntegrity(ops, m, 500);
    EarlyFire(m);
  }

  /** The late call adds an older reading, at the same moment or later. */
  lemma HourClocked(start: nat, recurring: bool, late: nat, ops: seq<Op>) returns (times: seq<nat>)
    requires start <= 1000 && late <= 1000
    requires ops == [OpAdd(0, 3600000, Some(7), recurring, start), OpNext(start), OpExpire(1000)]
    ensures Clocked(ops + [OpExpire(late)], times, start)
  {
    times := [start, start, 1000, 1000];
    var all := ops + [OpExpire(late)];
    assert |all| == 4 && all[0] == ops[0] && all[1] == ops[1] && all[2] == ops[2] && all[3] == OpExpire(late);
  }

  lemma EarlyFire(m: TM)
    requires m == HourState(500, false).(prev := 1000) && Integrity(m)
    ensures ListExpired(m, 999).1 == [Some(7)] && !TakesExactlyTheDue(m, 999) && !NeverEarly(ListExpired(m, 999).0)
  {
    RolloverExactly(1000, 999);
    ExactUnlessRollover(m, 999);
    ExpiryNotEarly(m, 999);
    assert Taken(m, 999) == 1;
    assert m.order[..1] == [0];
    assert 0 in m.order;
  }

  /** And a recurring timer armed at 998 is moved by a late reading of 997 to an earlier deadline than the one last
      seen, and nobody is notified. */
  lemma StepBackIsSilent() returns (ops: seq<Op>, times: seq<nat>, m: TM)
    ensures Run(ops, m, 998) && Integrity(m) && Flag(m) && Clocked(ops + [OpExpire(997)], times, 998)
    ensures !Settled(m, OpExpire(997)) && !Flag(ListExpired(m, 997).0)
  {
    hide Run, Clocked;
    ops, m := HourTimerRun(998, true);
    times := HourClocked(998, true, 997, ops);
    EveryRunKeepsIntegrity(ops, m, 998);
    SilentMove(m);
  }

  lemma SilentMove(m: TM)
    requires m == HourState(998, true).(prev := 1000) && Integrity(m)
    ensures Flag(m) && !Settled(m, OpExpire(997)) && !Flag(ListExpired(m, 997).0)
  {
    hide ListExpired, Integrity;
    RolloverExactly(1000, 997);
    assert Taken(m, 997) == 1;
    assert m.order[..1] == [0] && 0 in m.order[..1];
    ExpireKeeps(m, 997);
  }
}
