/** What each call of the timer manager does, field by field: to its own timer, to the others, and to the wake-up
    flag. */
module TimerEffects {
  import opened Sums
  import opened Timers
  import opened TimerRuns

  /** Every other timer is as it was, armed or not. */
  ghost predicate OthersSame(m: TM, m': TM, a: Addr) {
    && (forall x :: x in m.table && x != a ==> x in m'.table && m'.table[x] == m.table[x])
    && (forall x :: x in m'.table && x != a ==> x in m.table)
    && (forall x :: x != a ==> (x in m'.order <==> x in m.order))
  }

  /** `a` expires before every other armed timer; equal deadlines go by address. */
  ghost predicate Front(m: TM, a: Addr)
    requires WellTyped(m) && a in m.table
  {
    forall x :: x in m.order && x != a ==>
      m.table[a].next < m.table[x].next || (m.table[a].next == m.table[x].next && a < x)
  }

  /** Arming notifies if and only if the timer becomes the first and nobody was notified yet. */
  ghost predicate Notified(m: TM, m': TM, a: Addr)
    requires WellTyped(m') && a in m'.table
  {
    && m'.tickled == (m.tickled || Front(m', a))
    && m'.notified == m.notified + (if !m.tickled && Front(m', a) then 1 else 0)
    && m'.seen == m.seen && m'.fired == m.fired && m'.prev == m.prev
  }

  lemma FrontExactly(tb: Table, order: seq<Addr>, a: Addr)
    requires Known(tb, order) && Sorted(tb, order) && a in order
    ensures order[0] == a <==> forall x :: x in order && x != a ==>
      tb[a].next < tb[x].next || (tb[a].next == tb[x].next && a < x)
  {
    var i :| 0 <= i < |order| && order[i] == a;
    if i == 0 {
      forall x | x in order && x != a
        ensures tb[a].next < tb[x].next || (tb[a].next == tb[x].next && a < x)
      {
        var j :| 0 <= j < |order| && order[j] == x;
        assert Before(Key(tb, order[0]), Key(tb, order[j]));
      }
    } else {
      assert Before(Key(tb, order[0]), Key(tb, order[i]));
      assert order[0] in order;
    }
  }

  lemma ArmEffect(m: TM, tb: Table, order: seq<Addr>, a: Addr)
    requires Known(tb, order) && Sorted(tb, order) && a in tb && a !in order
    ensures
      var m' := Arm(m, tb, order, a);
      && m'.table == tb && WellTyped(m') && Notified(m, m', a)
      && (forall x :: x in m'.order <==> x == a || x in order)
  {
    hide Lower, Before, Sorted;
    InsertSorted(tb, order, a);
    FrontExactly(tb, Insert(tb, order, a), a);
  }

  /** AddTimer: a timer that is due at now + ms, armed; the others stay. */
  lemma AddEffect(m: TM, a: Addr, ms: nat, cb: Option<CbId>, recurring: bool, now: nat)
    requires Integrity(m) && a !in m.table
    ensures
      var m' := AddTimer(m, a, ms, cb, recurring, now);
      && a in m'.table && a in m'.order
      && m'.table[a].next == now + ms && m'.table[a].ms == ms && m'.table[a].cb == cb
          && m'.table[a].recurring == recurring
      && OthersSame(m, m', a) && WellTyped(m') && Notified(m, m', a)
  {
    hide Lower, Before, Sorted, Arm, Sum, Once;
    var tb := m.table[a := Timer(now + ms, ms, recurring, cb, cb.Some?, now)];
    OutsideKeepsSorted(m.table, tb, m.order);
    ArmEffect(m, tb, m.order, a);
  }

  /** Cancel: the timer loses its callback and leaves the set, and nothing else happens; without a callback nothing
      happens at all. */
  lemma CancelEffect(m: TM, a: Addr)
    requires Integrity(m) && a in m.table
    ensures m.table[a].cb.Some? ==> Find(m.table, m.order, a).Some?
    ensures
      var (m', ok) := Cancel(m, a);
      && (ok <==> m.table[a].cb.Some?)
      && (!ok ==> m' == m)
      && (ok ==>
            && a in m'.table && m'.table[a] == m.table[a].(cb := None) && a !in m'.order && OthersSame(m, m', a)
            && m' == m.(table := m'.table, order := m'.order))
  {
    hide Lower, Before, Sorted, Sum, Once;
    if m.table[a].cb.Some? {
      CancelFinds(m, a);
      RemoveSorted(m.table, m.order, Find(m.table, m.order, a).value);
    }
  }

  /** Refresh: the timer is due at now + its period, and nothing else changes, the flag included. */
  lemma RefreshEffect(m: TM, a: Addr, now: nat)
    requires Integrity(m) && a in m.table
    ensures
      var (m', ok) := Refresh(m, a, now);
      && (ok <==> m.table[a].cb.Some?)
      && (!ok ==> m' == m)
      && (ok ==>
            && a in m'.table && m'.table[a] == m.table[a].(next := now + m.table[a].ms, start := now)
            && a in m'.order && OthersSame(m, m', a) && m' == m.(table := m'.table, order := m'.order))
  {
    hide Lower, Before, Sorted, Sum, Once, Insert;
    if m.table[a].cb.Some? {
      hide Refresh;
      var order, tb := RefreshIs(m, a, now);
      OutsideKeepsSorted(m.table, tb, order);
      InsertSorted(tb, order, a);
    }
  }

  /** reset: the timer gets the new period and is due that long after now, or after its last arming; it is notified
      like a new one. Asking for the period it has changes nothing, and without a callback nothing happens. */
  lemma ResetEffect(m: TM, a: Addr, ms: nat, fromNow: bool, now: nat)
    requires Integrity(m) && a in m.table
    ensures m.table[a].ms <= m.table[a].next
    ensures
      var (m', ok) := Reset(m, a, ms, fromNow, now);
      var t := m.table[a];
      && (ok <==> t.cb.Some? || (ms == t.ms && !fromNow))
      && (!ok || (ms == t.ms && !fromNow) ==> m' == m)
      && (ok && !(ms == t.ms && !fromNow) ==>
            && a in m'.table && m'.table[a].ms == ms
            && m'.table[a].next == (if fromNow then now else t.next - t.ms) + ms
            && m'.table[a].cb == t.cb && m'.table[a].recurring == t.recurring
            && a in m'.order && OthersSame(m, m', a) && WellTyped(m') && Notified(m, m', a))
  {
    assert m.table[a].next == m.table[a].start + m.table[a].ms;
    hide Lower, Before, Sorted, Sum, Once, Insert, Arm;
    if !(ms == m.table[a].ms && !fromNow) && m.table[a].cb.Some? {
      hide Reset;
      var order, tb := ResetIs(m, a, ms, fromNow, now);
      OutsideKeepsSorted(m.table, tb, order);
      ArmEffect(m, tb, order, a);
    }
  }

  /** GetNextTimer: the flag is taken back, what is seen is the earliest deadline, and no timer changes. */
  lemma NextEffect(m: TM, now: nat)
    requires Integrity(m)
    ensures
      var m' := GetNextTimer(m, now).0;
      && !m'.tickled && m'.notified == 0
      && m' == m.(tickled := false, notified := 0, seen := m'.seen)
      && (m'.seen.None? <==> m.order == [])
      && (m'.seen.Some? ==>
            && (exists a :: a in m.order && m.table[a].next == m'.seen.value)
            && (forall a :: a in m.order ==> m'.seen.value <= m.table[a].next))
  {
    hide Sum, Once;
    if m.order != [] {
      assert m.order[0] in m.order;
      forall a | a in m.order ensures m.table[m.order[0]].next <= m.table[a].next { SortedHead(m.table, m.order, a); }
    }
  }

  /** ListExpiredCb: the reading is noted, each timer taken has fired once at it, and the flag is left alone. */
  lemma ExpireEffect(m: TM, now: nat)
    requires Integrity(m)
    ensures
      var m' := ListExpired(m, now).0;
      var k := Taken(m, now);
      && (m.order == [] ==> m' == m)
      && (m.order != [] ==>
            && m'.prev == now && |m'.fired| == |m.fired| + k && m'.fired[..|m.fired|] == m.fired
            && (forall i :: 0 <= i < k ==> m'.fired[|m.fired| + i] == Fire(m.order[i], m.table[m.order[i]].next, now))
            && m'.tickled == m.tickled && m'.notified == m.notified && m'.seen == m.seen)
      && (Rollover(m.prev, now) ==> k == |m.order|)
      && (!Rollover(m.prev, now) ==> forall i :: 0 <= i < |m.order| ==> (i < k <==> m.table[m.order[i]].next <= now))
  {
    hide Sum, Once;
    if !Rollover(m.prev, now) && m.order != [] {
      var k := Taken(m, now);
      forall i | 0 <= i < |m.order|
        ensures i < k <==> m.table[m.order[i]].next <= now
      {
        if k < i { assert Before(Key(m.table, m.order[k]), Key(m.table, m.order[i])); }
      }
    }
  }
}
