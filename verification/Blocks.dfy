/** How a list of equal-sized blocks lies in one flat byte sequence. */
module Blocks {
  import opened Bytes

  /** Block number `k` of the flat sequence is `b`. */
  ghost predicate Holds(b: seq<Byte>, flat: seq<Byte>, k: nat, base: nat) {
    Times(k, base) + base <= |flat| && b == flat[Times(k, base)..Times(k, base) + base]
  }

  /** `after` is `before` with `bs` written over it from position `p` on. */
  ghost predicate Patched(before: seq<Byte>, after: seq<Byte>, p: nat, bs: seq<Byte>) {
    && |after| == |before| && p + |bs| <= |before|
    && forall i {:trigger after[i]} :: 0 <= i < |after| ==>
         after[i] == if p <= i < p + |bs| then bs[i - p] else before[i]
  }

  // Positions are split into block number and offset by repeated subtraction; `SplitIsDivMod` and
  // `TimesIsProduct` say that these are the `/`, `%` and `*` of the source.

  /** k blocks of `base` bytes. */
  function Times(k: nat, base: nat): nat {
    if k == 0 then 0 else Times(k - 1, base) + base
  }

  function BlockOf(p: nat, base: nat): nat
    requires base > 0
  {
    if p < base then 0 else 1 + BlockOf(p - base, base)
  }

  function OffsetOf(p: nat, base: nat): (o: nat)
    requires base > 0
    ensures o < base
  {
    if p < base then p else OffsetOf(p - base, base)
  }

  lemma {:induction false} SplitPosition(p: nat, base: nat)
    requires base > 0
    ensures p == Times(BlockOf(p, base), base) + OffsetOf(p, base)
  {
    if p >= base {
      SplitPosition(p - base, base);
    }
  }

  lemma {:induction false} PositionOf(k: nat, r: nat, base: nat)
    requires r < base
    ensures BlockOf(Times(k, base) + r, base) == k && OffsetOf(Times(k, base) + r, base) == r
  {
    if k > 0 {
      PositionOf(k - 1, r, base);
    }
  }

  lemma {:induction false} TimesOrder(j: nat, k: nat, base: nat)
    requires j < k
    ensures Times(j, base) + base <= Times(k, base)
  {
    if j < k - 1 {
      TimesOrder(j, k - 1, base);
    }
  }

  lemma {:induction false} TimesSum(j: nat, k: nat, base: nat)
    ensures Times(j + k, base) == Times(j, base) + Times(k, base)
  {
    if k > 0 {
      TimesSum(j, k - 1, base);
      assert j + k - 1 == j + (k - 1);
    }
  }

  lemma {:induction false} TimesIsProduct(k: nat, base: nat)
    ensures Times(k, base) == k * base
  {
    if k > 0 {
      TimesIsProduct(k - 1, base);
      assert k * base == (k - 1) * base + base;
    }
  }

  lemma MultipleIsFar(d: int, base: int)
    requires base > 0 && d != 0
    ensures d * base >= base || d * base <= -base
  {
    if d >= 1 {
      assert (d - 1) * base >= 0;
      assert d * base == (d - 1) * base + base;
    } else {
      assert (-d - 1) * base >= 0;
      assert d * base == -((-d - 1) * base) - base;
    }
  }

  lemma SplitUnique(q: int, r: int, q': int, r': int, base: int)
    requires q * base + r == q' * base + r' && 0 <= r < base && 0 <= r' < base
    ensures q == q' && r == r'
  {
    assert (q - q') * base == q * base - q' * base;
    if q != q' {
      MultipleIsFar(q - q', base);
    }
  }

  lemma QuotientUnique(p: nat, base: nat, q: nat, r: nat)
    requires base > 0 && p == q * base + r && r < base
    ensures p / base == q && p % base == r
  {
    var q', r' := p / base, p % base;
    assert p == q' * base + r' && 0 <= r' < base;
    SplitUnique(q, r, q', r', base);
  }

  lemma SplitIsDivMod(p: nat, base: nat)
    requires base > 0
    ensures BlockOf(p, base) == p / base && OffsetOf(p, base) == p % base
  {
    SplitPosition(p, base);
    TimesIsProduct(BlockOf(p, base), base);
    QuotientUnique(p, base, BlockOf(p, base), OffsetOf(p, base));
  }

  /** A position before the end lies in one of the blocks. */
  lemma BlockInside(p: nat, count: nat, base: nat)
    requires base > 0 && p < Times(count, base)
    ensures BlockOf(p, base) < count
  {
    SplitPosition(p, base);
    if count < BlockOf(p, base) {
      TimesOrder(count, BlockOf(p, base), base);
    }
  }

  /** How much of `n` bytes a block takes from offset `o` on. */
  function Reach(base: nat, o: nat, n: nat): (c: nat)
    requires o < base
    ensures 0 < n ==> 0 < c <= n
    ensures c < n ==> o + c == base
  {
    if base - o >= n then n else base - o
  }

  /** ceil(n / base), as AddCapacity needs it. */
  function CeilDiv(n: nat, base: nat): (c: nat)
    requires base > 0
  {
    BlockOf(n + base - 1, base)
  }

  lemma CeilDivExactly(n: nat, base: nat)
    requires base > 0
    ensures n <= Times(CeilDiv(n, base), base) < n + base
    ensures CeilDiv(n, base) == (n + base - 1) / base
  {
    SplitPosition(n + base - 1, base);
    SplitIsDivMod(n + base - 1, base);
  }

  /** Adding ceil(need / base) blocks to `had` makes room for `need` more bytes, and does not move the block
      that holds a position. */
  lemma CapacityGrown(p: nat, need: nat, had: nat, base: nat)
    requires base > 0 && need > 0 && p <= Times(had, base)
    ensures CeilDiv(need, base) > 0
    ensures Times(had + CeilDiv(need, base), base) == Times(had, base) + Times(CeilDiv(need, base), base)
    ensures need <= Times(CeilDiv(need, base), base) < need + base
    ensures BlockOf(p, base) <= had
    ensures p == Times(had, base) <==> BlockOf(p, base) == had
  {
    CeilDivExactly(need, base);
    TimesSum(had, CeilDiv(need, base), base);
    SplitPosition(p, base);
    if p == Times(had, base) {
      PositionOf(had, 0, base);
    } else if had < BlockOf(p, base) {
      TimesOrder(had, BlockOf(p, base), base);
    }
  }

  lemma TimesNext(k: nat, base: nat)
    ensures Times(k + 1, base) == Times(k, base) + base
  {
  }

  lemma HoldsLonger(b: seq<Byte>, flat: seq<Byte>, more: seq<Byte>, k: nat, base: nat)
    requires Holds(b, flat, k, base)
    ensures Holds(b, flat + more, k, base)
  {
  }

  lemma HoldsLast(b: seq<Byte>, flat: seq<Byte>, k: nat, base: nat)
    requires |flat| == Times(k, base) && |b| == base
    ensures Holds(b, flat + b, k, base)
  {
  }

  /** Overwriting inside block `k` overwrites the flat sequence, and the other blocks stay as they were. */
  lemma PatchBlock(b: seq<Byte>, b': seq<Byte>, flat: seq<Byte>, flat': seq<Byte>,
                   k: nat, o: nat, bs: seq<Byte>, base: nat)
    requires Holds(b, flat, k, base) && |b'| == base && Patched(b, b', o, bs)
    requires Patched(flat, flat', Times(k, base) + o, bs)
    ensures Holds(b', flat', k, base)
  {
  }

  lemma PatchOther(b: seq<Byte>, flat: seq<Byte>, flat': seq<Byte>, k: nat, o: nat, bs: seq<Byte>, base: nat, i: nat)
    requires Holds(b, flat, i, base) && i != k && o + |bs| <= base
    requires Patched(flat, flat', Times(k, base) + o, bs)
    ensures Holds(b, flat', i, base)
  {
    if i < k {
      TimesOrder(i, k, base);
    } else {
      TimesOrder(k, i, base);
    }
  }

  lemma BlockSlice(b: seq<Byte>, flat: seq<Byte>, k: nat, o: nat, n: nat, base: nat, q: nat)
    requires Holds(b, flat, k, base) && o + n <= base && q == Times(k, base) + o
    ensures |b| == base && q + n <= |flat| && b[o..o + n] == flat[q..q + n]
  {
    var t := Times(k, base);
    assert |b| == base;
    assert forall i :: 0 <= i < base ==> b[i] == flat[t + i];
  }

  lemma PatchNothing(s: seq<Byte>, p: nat, bs: seq<Byte>)
    requires p <= |s| && bs == []
    ensures Patched(s, s, p, bs)
  {
  }

  /** One more stretch of `buf` written behind the ones before. */
  lemma PatchMore(s0: seq<Byte>, s1: seq<Byte>, s2: seq<Byte>, p: nat, buf: seq<Byte>, i: nat, j: nat, bs: seq<Byte>)
    requires p + |buf| <= |s0| && i <= j <= |buf| && bs == buf[i..j]
    requires Patched(s0, s1, p, buf[..i]) && Patched(s1, s2, p + i, bs)
    ensures Patched(s0, s2, p, buf[..j])
  {
    forall x | 0 <= x < |s2|
      ensures s2[x] == if p <= x < p + j then buf[..j][x - p] else s0[x]
    {
      assert s1[x] == if p <= x < p + i then buf[..i][x - p] else s0[x];
    }
  }
}
