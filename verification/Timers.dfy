/** TimerManager: an ordered set of timers whose deadlines change. Timer objects live in `table`, keyed by
    their address; `order` is the set `timers_`, in comparator order. Deadlines are unbounded integers; only
    the subtraction in DetectClockRollover is done modulo 2^64, because it does wrap early after boot. */
module Timers {
  import opened Sums

  type Addr = nat
  type CbId = nat

  /** `made` and `start` are history: created with a callback, and the last time it was armed. */
  datatype Timer = Timer(next: nat, ms: nat, recurring: bool, cb: Option<CbId>, made: bool, start: nat)

  type Table = map<Addr, Timer>

  datatype Fire = Fire(a: Addr, deadline: nat, at: nat)

  /** `seen` is the earliest deadline at the last GetNextTimer (None: there was no timer), `notified` the
      number of OnTimerInsertedAtFront calls since, and `fired` every expiry so far. */
  datatype TM = TM(
    table: Table, order: seq<Addr>, tickled: bool, prev: nat,
    seen: Option<nat>, notified: nat, fired: seq<Fire>)

  // ------------------------------------------------------------------ Comparator

  /** Comparator on deadline and address; a null pointer comes first. */
  predicate Before(l: Option<(nat, Addr)>, r: Option<(nat, Addr)>) {
    if l.None? then r.Some?
    else if r.None? then false
    else l.value.0 < r.value.0 || (l.value.0 == r.value.0 && l.value.1 < r.value.1)
  }

  lemma ComparatorIsStrictTotalOrder(x: Option<(nat, Addr)>, y: Option<(nat, Addr)>, z: Option<(nat, Addr)>)
    ensures !Before(x, x)
    ensures Before(x, y) && Before(y, z) ==> Before(x, z)
    ensures x == y || Before(x, y) || Before(y, x)
    ensures x.None? && y.Some? ==> Before(x, y)
    ensures x.Some? && y.Some? && x.value.0 < y.value.0 ==> Before(x, y)
    ensures x.Some? && y.Some? && x.value.0 == y.value.0 ==> (Before(x, y) <==> x.value.1 < y.value.1)
  {
  }

  function Key(tb: Table, a: Addr): Option<(nat, Addr)>
    requires a in tb
  {
    Some((tb[a].next, a))
  }

  predicate Known(tb: Table, order: seq<Addr>) { forall a :: a in order ==> a in tb }

  /** Strictly ascending: what std::set keeps as long as no key changes inside it. */
  ghost predicate Sorted(tb: Table, order: seq<Addr>)
    requires Known(tb, order)
  {
    forall i, j :: 0 <= i < j < |order| ==> Before(Key(tb, order[i]), Key(tb, order[j]))
  }

  /** lower_bound: how many leading elements are less than the key. */
  function Lower(tb: Table, order: seq<Addr>, key: Option<(nat, Addr)>): (p: nat)
    requires Known(tb, order)
    ensures p <= |order|
    ensures forall i :: 0 <= i < p ==> Before(Key(tb, order[i]), key)
    ensures p < |order| ==> !Before(Key(tb, order[p]), key)
  {
    if order == [] || !Before(Key(tb, order[0]), key) then 0
    else
      assert forall i :: 0 < i < |order| ==> order[i] == order[1..][i - 1];
      1 + Lower(tb, order[1..], key)
  }

  /** set::find */
  function Find(tb: Table, order: seq<Addr>, a: Addr): (r: Option<nat>)
    requires Known(tb, order) && a in tb
    ensures r.Some? ==> r.value < |order|
  {
    var p := Lower(tb, order, Key(tb, a));
    if p < |order| && !Before(Key(tb, a), Key(tb, order[p])) then Some(p) else None
  }

  /** set::insert of an element that is not in the set. */
  function Insert(tb: Table, order: seq<Addr>, a: Addr): seq<Addr>
    requires Known(tb, order) && a in tb
  {
    var p := Lower(tb, order, Key(tb, a));
    order[..p] + [a] + order[p..]
  }

  lemma FindFinds(tb: Table, order: seq<Addr>, a: Addr)
    requires Known(tb, order) && a in tb && Sorted(tb, order)
    ensures Find(tb, order, a).Some? <==> a in order
    ensures Find(tb, order, a).Some? ==> order[Find(tb, order, a).value] == a
  {
    var p := Lower(tb, order, Key(tb, a));
    if a in order {
      var i :| 0 <= i < |order| && order[i] == a;
    }
  }

  lemma AfterLower(tb: Table, order: seq<Addr>, a: Addr, i: nat)
    requires Known(tb, order) && a in tb && Sorted(tb, order) && a !in order
    requires Lower(tb, order, Key(tb, a)) <= i < |order|
    ensures Before(Key(tb, a), Key(tb, order[i]))
  {
    hide Lower;
    var p := Lower(tb, order, Key(tb, a));
    assert order[i] in order && order[p] in order;
    ComparatorIsStrictTotalOrder(Key(tb, a), Key(tb, order[p]), Key(tb, order[i]));
  }

  lemma InsertSorted(tb: Table, order: seq<Addr>, a: Addr)
    requires Known(tb, order) && a in tb && Sorted(tb, order) && a !in order
    ensures Known(tb, Insert(tb, order, a)) && Sorted(tb, Insert(tb, order, a))
    ensures forall x :: x in Insert(tb, order, a) <==> x == a || x in order
    ensures |Insert(tb, order, a)| == |order| + 1
    ensures Insert(tb, order, a)[0] == a || (order != [] && Insert(tb, order, a)[0] == order[0])
  {
    hide Lower, Before;
    var p := Lower(tb, order, Key(tb, a));
    forall i | p <= i < |order|
      ensures Before(Key(tb, a), Key(tb, order[i]))
    {
      AfterLower(tb, order, a, i);
    }
    assert order == order[..p] + order[p..];
  }

  lemma RemoveSorted(tb: Table, order: seq<Addr>, i: nat)
    requires Known(tb, order) && Sorted(tb, order) && i < |order|
    ensures Known(tb, Removed(order, i)) && Sorted(tb, Removed(order, i))
    ensures order[i] !in Removed(order, i)
    ensures forall x :: x in order <==> x == order[i] || x in Removed(order, i)
  {
    assert order == order[..i] + [order[i]] + order[i + 1..];
    forall x | x in Removed(order, i)
      ensures x != order[i]
    {
      var j :| 0 <= j < |Removed(order, i)| && Removed(order, i)[j] == x;
      assert x == if j < i then order[j] else order[j + 1];
    }
  }

  /** Changing timers that are outside the set does not disturb it. */
  lemma OutsideKeepsSorted(tb: Table, tb': Table, order: seq<Addr>)
    requires Known(tb, order) && Sorted(tb, order)
    requires forall a :: a in order ==> a in tb' && tb'[a].next == tb[a].next
    ensures Known(tb', order) && Sorted(tb', order)
  {
  }

  // ------------------------------------------------------------------ operations on values

  /** AddTimer(val, lock): insert, and notify when it is at the front and nobody was notified yet. */
  function Arm(m: TM, tb: Table, order: seq<Addr>, a: Addr): TM
    requires Known(tb, order) && a in tb
  {
    var order' := Insert(tb, order, a);
    var atFront := order'[0] == a && !m.tickled;
    m.(table := tb, order := order',
       tickled := m.tickled || atFront, notified := m.notified + if atFront then 1 else 0)
  }

  predicate WellTyped(m: TM) { Known(m.table, m.order) }

  function AddTimer(m: TM, a: Addr, ms: nat, cb: Option<CbId>, recurring: bool, now: nat): TM
    requires WellTyped(m) && a !in m.table
  {
    var tb := m.table[a := Timer(now + ms, ms, recurring, cb, cb.Some?, now)];
    Arm(m, tb, m.order, a)
  }

  /** The unchecked erase: it needs find to have found the timer. */
  function Cancel(m: TM, a: Addr): (TM, bool)
    requires WellTyped(m) && a in m.table
    requires m.table[a].cb.Some? ==> Find(m.table, m.order, a).Some?
  {
    if m.table[a].cb.None? then (m, false)
    else
      var p := Find(m.table, m.order, a).value;
      (m.(table := m.table[a := m.table[a].(cb := None)], order := Removed(m.order, p)), true)
  }

  lemma RemovedKnown(tb: Table, order: seq<Addr>, i: nat)
    requires Known(tb, order) && i < |order|
    ensures Known(tb, Removed(order, i))
  {
  }

  function Refresh(m: TM, a: Addr, now: nat): (TM, bool)
    requires WellTyped(m) && a in m.table
  {
    if m.table[a].cb.None? || Find(m.table, m.order, a).None? then (m, false)
    else
      var order := Removed(m.order, Find(m.table, m.order, a).value);
      var tb := m.table[a := m.table[a].(next := now + m.table[a].ms, start := now)];
      RemovedKnown(m.table, m.order, Find(m.table, m.order, a).value);
      (m.(table := tb, order := Insert(tb, order, a)), true)
  }

  /** The new key that reset computes: from now, or from the last arming time `next_ - ms_`. */
  function Retimed(t: Timer, ms: nat, fromNow: bool, now: nat): Timer
    requires t.ms <= t.next
  {
    var start := if fromNow then now else t.next - t.ms;
    t.(ms := ms, next := start + ms, start := if fromNow then now else t.start)
  }

  function Reset(m: TM, a: Addr, ms: nat, fromNow: bool, now: nat): (TM, bool)
    requires WellTyped(m) && a in m.table && m.table[a].ms <= m.table[a].next
  {
    if ms == m.table[a].ms && !fromNow then (m, true)
    else if m.table[a].cb.None? || Find(m.table, m.order, a).None? then (m, false)
    else
      var order := Removed(m.order, Find(m.table, m.order, a).value);
      var tb := m.table[a := Retimed(m.table[a], ms, fromNow, now)];
      RemovedKnown(m.table, m.order, Find(m.table, m.order, a).value);
      (Arm(m, tb, order, a), true)
  }

  /** GetNextTimer: None is ~0ull. */
  function GetNextTimer(m: TM, now: nat): (TM, Option<nat>)
    requires WellTyped(m)
  {
    if m.order == [] then (m.(tickled := false, seen := None, notified := 0), None)
    else
      var next := m.table[m.order[0]].next;
      (m.(tickled := false, seen := Some(next), notified := 0),
       Some(if now >= next then 0 else next - now))
  }

  /** DetectClockRollover; the subtraction is unsigned. */
  predicate Rollover(prev: nat, now: nat) {
    now < prev && now < (prev - 3600000) % 0x1_0000_0000_0000_0000
  }

  /** How many leading timers are due. */
  function Due(tb: Table, order: seq<Addr>, now: nat): (k: nat)
    requires Known(tb, order)
    ensures k <= |order|
    ensures forall i :: 0 <= i < k ==> tb[order[i]].next <= now
    ensures k < |order| ==> tb[order[k]].next > now
  {
    if order == [] || tb[order[0]].next > now then 0
    else
      assert forall i :: 0 < i < |order| ==> order[i] == order[1..][i - 1];
      1 + Due(tb, order[1..], now)
  }

  /** The loop over the expired timers: one-shot timers lose their callback, recurring ones are re-armed. */
  function Rearm(tb: Table, order: seq<Addr>, expired: seq<Addr>, now: nat): (r: (Table, seq<Addr>))
    requires Known(tb, order) && Known(tb, expired)
    ensures r.0.Keys == tb.Keys && Known(r.0, r.1)
    decreases |expired|
  {
    if expired == [] then (tb, order)
    else
      var n := |expired| - 1;
      var a := expired[n];
      var (tb', order') := Rearm(tb, order, expired[..n], now);
      if tb'[a].recurring then
        var tb'' := tb'[a := tb'[a].(next := now + tb'[a].ms, start := now)];
        (tb'', Insert(tb'', order', a))
      else (tb'[a := tb'[a].(cb := None)], order')
  }

  function Callbacks(tb: Table, xs: seq<Addr>): seq<Option<CbId>>
    requires Known(tb, xs)
  {
    seq(|xs|, i requires 0 <= i < |xs| => assert xs[i] in xs; tb[xs[i]].cb)
  }

  function Fires(tb: Table, xs: seq<Addr>, now: nat): seq<Fire>
    requires Known(tb, xs)
  {
    seq(|xs|, i requires 0 <= i < |xs| => assert xs[i] in xs; Fire(xs[i], tb[xs[i]].next, now))
  }

  /** How many timers ListExpiredCb takes: the due ones, or all of them after a rollover. */
  function Taken(m: TM, now: nat): (k: nat)
    requires WellTyped(m)
    ensures k <= |m.order|
  {
    if m.order == [] then 0
    else if Rollover(m.prev, now) then |m.order|
    else Due(m.table, m.order, now)
  }

  function ListExpired(m: TM, now: nat): (TM, seq<Option<CbId>>)
    requires WellTyped(m)
  {
    if m.order == [] then (m, [])
    else
      var k := Taken(m, now);
      var (tb, order) := Rearm(m.table, m.order[k..], m.order[..k], now);
      (m.(table := tb, order := order, prev := now, fired := m.fired + Fires(m.table, m.order[..k], now)),
       Callbacks(m.table, m.order[..k]))
  }
}
