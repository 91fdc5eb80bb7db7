/** ByteArray: a linked list of fixed-size blocks with a cursor, proved to behave as one flat byte sequence. */
module ByteArrays {
  import opened Bytes
  import opened Blocks
  import opened Codec

  class Node {
    const ptr: array<Byte>
    var next: Node?

    constructor (s: nat)
      ensures fresh(ptr) && ptr.Length == s && next == null
    {
      ptr := new Byte[s];
      next := null;
    }
  }

  /** `after` is `before`, possibly longer, with `bs` at position `p` and nothing else changed. */
  ghost predicate Overwrites(before: seq<Byte>, after: seq<Byte>, p: nat, bs: seq<Byte>) {
    && p <= |before| <= |after| && p + |bs| <= |after|
    && after[..p] == before[..p]
    && after[p..p + |bs|] == bs
    && (forall i :: p + |bs| <= i < |before| ==> after[i] == before[i])
  }

  /** struct iovec: `len` bytes of a block from `off`. */
  datatype Iovec = Iovec(mem: array<Byte>, off: nat, len: nat)

  /** `iovs` tile `n` bytes from offset `o` of block `k` on, block by block. */
  ghost predicate Tiles(nodes: seq<Node>, base: nat, iovs: seq<Iovec>, k: nat, o: nat, n: nat)
    requires o < base
    decreases n
  {
    if n == 0 then iovs == []
    else
      var c := Reach(base, o, n);
      && iovs != [] && k < |nodes| && iovs[0] == Iovec(nodes[k].ptr, o, c)
      && Tiles(nodes, base, iovs[1..], k + 1, 0, n - c)
  }

  /** memcpy into a block. */
  method CopyIn(a: array<Byte>, o: nat, bs: seq<Byte>)
    requires o + |bs| <= a.Length
    modifies a
    ensures Patched(old(a[..]), a[..], o, bs)
  {
    forall i | 0 <= i < |bs| {
      a[o + i] := bs[i];
    }
  }

  class ByteArray {
    const base: nat
    var position: nat
    var capacity: nat
    var size: nat
    var root: Node
    var cur: Node?
    var endian: Order
    ghost var nodes: seq<Node>            // the list, in order
    ghost var flat: seq<Byte>             // what they hold, end to end

    ghost function Follower(i: nat): Node?
      reads this`nodes
    {
      if i + 1 < |nodes| then nodes[i + 1] else null
    }

    /** The list: `nodes` in order from `root_`, all of one size, no sharing. */
    ghost predicate Chain()
      reads this`nodes, this`flat, this`root, this`capacity, nodes, Arrays()
    {
      && base > 0 && nodes != [] && nodes[0] == root
      && (forall i {:trigger nodes[i].ptr} :: 0 <= i < |nodes| ==> nodes[i].ptr.Length == base)
      && (forall i {:trigger nodes[i].next} :: 0 <= i < |nodes| ==> nodes[i].next == Follower(i))
      && (forall i, j :: 0 <= i < j < |nodes| ==> nodes[i] != nodes[j] && nodes[i].ptr != nodes[j].ptr)
      && capacity == Times(|nodes|, base)
      && |flat| == capacity
      && (forall i {:trigger nodes[i].ptr} :: 0 <= i < |nodes| ==> Holds(nodes[i].ptr[..], flat, i, base))
    }

    /** The node that holds position `p`, null at the end of the list. */
    ghost function NodeAt(p: nat): Node?
      requires base > 0
      reads this`nodes
    {
      if BlockOf(p, base) < |nodes| then nodes[BlockOf(p, base)] else null
    }

    ghost predicate Valid()
      reads this, nodes, Arrays()
    {
      Chain() && position <= size <= capacity && cur == NodeAt(position)
    }

    ghost function Arrays(): set<object>
      reads this`nodes
    {
      set n: Node | n in nodes :: n.ptr as object
    }

    constructor (baseSize: nat)
      requires baseSize > 0
      ensures Valid() && position == 0 && size == 0 && base == capacity == baseSize && endian == Big
      ensures fresh(nodes[0]) && fresh(nodes[0].ptr) && |nodes| == 1
    {
      base, position, capacity, size := baseSize, 0, baseSize, 0;
      var n := new Node(baseSize);
      root, cur, endian := n, n, Big;
      nodes, flat := [n], n.ptr[..];
      new;
      assert Times(1, base) == Times(0, base) + base;
    }

    /** cur_ is null exactly when the position is at the capacity. */
    lemma CursorNull()
      requires Valid()
      ensures cur == null <==> position == capacity
    {
      SplitPosition(position, base);
      if BlockOf(position, base) < |nodes| {
        TimesOrder(BlockOf(position, base), |nodes|, base);
      } else if |nodes| < BlockOf(position, base) {
        TimesOrder(|nodes|, BlockOf(position, base), base);
      }
    }

    method SetIsLittleEndian(val: bool)
      modifies this`endian
      ensures endian == if val then Little else Big
    {
      endian := if val then Little else Big;
    }

    /** GetReadSize */
    function ReadSize(): nat
      requires position <= size
      reads this
    {
      size - position
    }

    method SetPosition(v: nat) returns (ok: bool)
      requires Valid()
      modifies this`position, this`size, this`cur
      ensures Valid() && ok == (v <= capacity)
      ensures ok ==> position == v && size == if v > old(size) then v else old(size)
      ensures !ok ==> position == old(position) && size == old(size) && cur == old(cur)
    {
      if v > capacity {
        return false;
      }
      position := v;
      if position > size {
        size := position;
      }
      cur := Seek(v);
      return true;
    }

    /** The walk at the end of SetPosition. */
    method Seek(v: nat) returns (c: Node?)
      requires Chain() && v <= capacity
      ensures c == NodeAt(v)
    {
      var rest := v;
      c := root;
      ghost var i := 0;
      while rest > base
        invariant 0 <= i < |nodes| && c == nodes[i] && 0 <= rest && v == Times(i, base) + rest
        decreases rest
      {
        assert Times(i + 1, base) == Times(i, base) + base;
        rest := rest - base;
        c := c.next;
        i := i + 1;
      }
      if rest == base {
        c := c.next;
        PositionOf(i + 1, 0, base);
      } else {
        PositionOf(i, rest, base);
      }
    }

    /** Clear keeps the first block only. */
    method Clear()
      requires Valid()
      modifies this`position, this`capacity, this`size, this`cur, this`nodes, this`flat, root`next
      ensures Valid() && position == size == 0 && capacity == base && root == old(root) && nodes == [root]
      ensures flat == root.ptr[..] == old(root.ptr[..])
    {
      position, size := 0, 0;
      capacity := base;
      assert Holds(nodes[0].ptr[..], flat, 0, base);
      nodes, flat := [root], flat[..base];
      cur := root;
      root.next := null;
      assert Times(1, base) == Times(0, base) + base;
    }

    /** How many blocks AddCapacity adds: ceil(size / base_size_). */
    ghost function Missing(n: nat): nat
      requires base > 0
      reads this`position, this`capacity
    {
      if capacity - position >= n then 0 else CeilDiv(n - (capacity - position), base)
    }

    method AddCapacity(n: nat)
      requires Valid()
      modifies this`capacity, this`cur, this`nodes, this`flat, nodes
      ensures Valid() && position == old(position) && size == old(size) && root == old(root)
      ensures capacity - position >= n && capacity == old(capacity) + Times(old(Missing(n)), base)
      ensures capacity == old(capacity) || capacity < position + n + base
      ensures old(nodes) <= nodes && old(flat) <= flat && NewNodesFresh()
    {
      if n == 0 || capacity - position >= n {
        return;
      }
      var oldCap := capacity - position;
      var need := n - oldCap;
      var count := CeilDiv(need, base);
      ghost var had := |nodes|;
      CapacityGrown(position, need, had, base);
      var first := Extend(count);
      assert capacity == Times(had + count, base);
      if oldCap == 0 {
        cur := first;
      }
    }

    /** The first loop of AddCapacity: walk to the last node. */
    method Last() returns (tmp: Node)
      requires Chain()
      ensures tmp == nodes[|nodes| - 1]
    {
      tmp := root;
      ghost var k := 0;
      while tmp.next != null
        invariant 0 <= k < |nodes| && tmp == nodes[k]
        decreases |nodes| - k
      {
        tmp := tmp.next;
        k := k + 1;
      }
    }

    /** The second loop: append `count` nodes. */
    method Extend(count: nat) returns (first: Node?)
      requires Chain()
      modifies this`capacity, this`nodes, this`flat, nodes
      ensures Chain() && root == old(root)
      ensures |nodes| == |old(nodes)| + count && old(nodes) <= nodes && old(flat) <= flat && NewNodesFresh()
      ensures capacity == Times(|old(nodes)| + count, base)
      ensures first == if count > 0 then nodes[|old(nodes)|] else null
    {
      var tmp := Last();
      first := null;
      var i := 0;
      while i < count
        invariant 0 <= i <= count && |nodes| == |old(nodes)| + i
        invariant Chain() && root == old(root) && tmp == nodes[|nodes| - 1]
        invariant old(nodes) <= nodes && old(flat) <= flat && NewNodesFresh()
        invariant first == if i > 0 then nodes[|old(nodes)|] else null
      {
        tmp := Append(tmp);
        if first == null {
          first := tmp;
        }
        i := i + 1;
      }
    }

    twostate predicate NewNodesFresh()
      reads this
    {
      forall n: Node :: n in nodes ==> n in old(nodes) || (fresh(n) && fresh(n.ptr))
    }

    /** One node more. */
    method Append(last: Node) returns (n: Node)
      requires Chain() && last == nodes[|nodes| - 1]
      modifies this`capacity, this`nodes, this`flat, last`next
      ensures Chain() && root == old(root) && nodes == old(nodes) + [n] && fresh(n) && fresh(n.ptr)
      ensures old(flat) <= flat
    {
      hide Holds, Times;
      ghost var flat0, count := flat, |nodes|;
      n := new Node(base);
      last.next := n;
      capacity := capacity + base;
      nodes := nodes + [n];
      flat := flat + n.ptr[..];
      forall i | 0 <= i < |nodes|
        ensures Holds(nodes[i].ptr[..], flat, i, base)
      {
        if i < count {
          assert Holds(nodes[i].ptr[..], flat0, i, base);
          HoldsLonger(nodes[i].ptr[..], flat0, n.ptr[..], i, base);
        } else {
          HoldsLast(n.ptr[..], flat0, count, base);
        }
      }
      TimesNext(count, base);
    }

    /** Position `p` is offset `o` of block `k`, and `c` is the node of that block (null past the last). */
    ghost predicate At(c: Node?, p: nat, k: nat, o: nat)
      reads this`nodes
    {
      p == Times(k, base) + o && o < base && k <= |nodes| && c == if k < |nodes| then nodes[k] else null
    }

    lemma AtPosition(p: nat) returns (k: nat, o: nat)
      requires Chain() && p <= capacity
      ensures k == BlockOf(p, base) && o == OffsetOf(p, base) && At(NodeAt(p), p, k, o)
      ensures p < capacity ==> k < |nodes|
    {
      k, o := BlockOf(p, base), OffsetOf(p, base);
      SplitPosition(p, base);
      if |nodes| < k {
        TimesOrder(|nodes|, k, base);
      }
      if p < capacity {
        BlockInside(p, |nodes|, base);
      }
    }

    /** The cursor walk agrees with the division of the position. */
    lemma AtIsNode(c: Node?, p: nat, k: nat, o: nat)
      requires base > 0 && At(c, p, k, o)
      ensures c == NodeAt(p) && BlockOf(p, base) == k && OffsetOf(p, base) == o
    {
      PositionOf(k, o, base);
    }

    lemma Inside(k: nat, o: nat, n: nat)
      requires Chain() && o < base && k <= |nodes| && 0 < n && Times(k, base) + o + n <= capacity
      ensures k < |nodes|
    {
    }

    /** One memcpy of a write. */
    method PutChunk(mem: array<Byte>, ghost k: nat, o: nat, bs: seq<Byte>, ghost q: nat)
      requires Chain() && k < |nodes| && mem == nodes[k].ptr && o + |bs| <= base && q == Times(k, base) + o
      modifies this`flat, mem
      ensures Chain() && q + |bs| <= |old(flat)|
      ensures Patched(old(flat), flat, q, bs)
    {
      assert Holds(mem[..], flat, k, base);
      ghost var before, was := flat, mem[..];
      CopyIn(mem, o, bs);
      flat := before[..q] + bs + before[q + |bs|..];
      assert Patched(before, flat, q, bs);
      PatchBlock(was, mem[..], before, flat, k, o, bs, base);
      forall i | 0 <= i < |nodes|
        ensures Holds(nodes[i].ptr[..], flat, i, base)
      {
        if i != k {
          assert Holds(nodes[i].ptr[..], before, i, base);
          PatchOther(nodes[i].ptr[..], before, flat, k, o, bs, base, i);
        }
      }
    }

    /** One round of the loop of write: as much of `rest` as the current block takes. */
    method PutRound(ghost k: nat, npos: nat, rest: seq<Byte>) returns (n: nat)
      requires Chain() && At(cur, position, k, npos) && 0 < |rest| && position + |rest| <= capacity
      modifies this`position, this`cur, this`flat, Arrays()
      ensures Chain() && n == Reach(base, npos, |rest|) && position == old(position) + n <= |old(flat)|
      ensures At(cur, position, if npos + n == base then k + 1 else k, if npos + n == base then 0 else npos + n)
      ensures Patched(old(flat), flat, old(position), rest[..n])
    {
      hide Patched, Holds;
      Inside(k, npos, |rest|);
      var ncap := base - npos;
      n := if ncap >= |rest| then |rest| else ncap;
      PutChunk(cur.ptr, k, npos, rest[..n], position);
      if npos + n == base {
        cur := cur.next;
      }
      position := position + n;
    }

    /** The round, seen from the start of the write. */
    method PutNext(ghost k: nat, npos: nat, buf: seq<Byte>, bpos: nat, ghost flat0: seq<Byte>,
                   ghost p0: nat) returns (n: nat)
      requires Chain() && At(cur, position, k, npos) && bpos < |buf| && position == p0 + bpos && p0 + |buf| <= capacity
      requires Patched(flat0, flat, p0, buf[..bpos])
      modifies this`position, this`cur, this`flat, Arrays()
      ensures Chain() && n == Reach(base, npos, |buf| - bpos) && position == p0 + bpos + n
      ensures At(cur, position, if npos + n == base then k + 1 else k, if npos + n == base then 0 else npos + n)
      ensures Patched(flat0, flat, p0, buf[..bpos + n])
    {
      ghost var flat1 := flat;
      n := PutRound(k, npos, buf[bpos..]);
      PatchMore(flat0, flat1, flat, p0, buf, bpos, bpos + n, buf[bpos..][..n]);
    }

    /** The loop of write, after AddCapacity made room. */
    method Fill(buf: seq<Byte>)
      requires Chain() && cur == NodeAt(position) && position + |buf| <= capacity
      modifies this`position, this`cur, this`flat, Arrays()
      ensures Chain() && cur == NodeAt(position) && position == old(position) + |buf| <= |old(flat)|
      ensures Patched(old(flat), flat, old(position), buf)
    {
      hide Patched, Holds;
      ghost var k: nat, o: nat := AtPosition(position);
      ghost var flat0, p0 := flat, position;
      var npos := OffsetOf(position, base);
      var bpos := 0;
      PatchNothing(flat, position, buf[..bpos]);
      while bpos < |buf|
        invariant 0 <= bpos <= |buf| && position == p0 + bpos && Chain() && At(cur, position, k, o)
        invariant bpos < |buf| ==> npos == o
        invariant Patched(flat0, flat, p0, buf[..bpos])
      {
        var n := PutNext(k, npos, buf, bpos, flat0, p0);
        k, o := if npos + n == base then k + 1 else k, if npos + n == base then 0 else npos + n;
        bpos := bpos + n;
        npos := 0;
      }
      AtIsNode(cur, position, k, o);
      assert buf[..bpos] == buf;
    }

    method Write(buf: seq<Byte>)
      requires Valid()
      modifies this`position, this`capacity, this`size, this`cur, this`nodes, this`flat, nodes, Arrays()
      ensures Valid() && position == old(position) + |buf|
      ensures size == (if position > old(size) then position else old(size))
      ensures capacity == old(capacity) + Times(old(Missing(|buf|)), base)
      ensures capacity == old(capacity) || capacity < position + base
      ensures Overwrites(old(flat), flat, old(position), buf)
      ensures root == old(root) && old(nodes) <= nodes && NewNodesFresh()
    {
      if |buf| == 0 {
        return;
      }
      AddCapacity(|buf|);
      ghost var grown := flat;
      Fill(buf);
      if position > size {
        size := position;
      }
      PrefixOverwrite(old(flat), grown, flat, old(position), buf);
    }

    /** One memcpy of a read. */
    method TakeChunk(c: Node, ghost k: nat, o: nat, n: nat, ghost q: nat) returns (bs: seq<Byte>)
      requires Chain() && k < |nodes| && c == nodes[k] && o + n <= base && q == Times(k, base) + o
      ensures q + n <= |flat| && |bs| == n && bs == flat[q..q + n]
    {
      assert Holds(c.ptr[..], flat, k, base);
      BlockSlice(c.ptr[..], flat, k, o, n, base, q);
      bs := c.ptr[o..o + n];
    }

    /** read: out of range if fewer bytes are left; a read of nothing at the very end has no block to look at. */
    method Read(n: nat) returns (r: Outcome<seq<Byte>>)
      requires Valid()
      modifies this`position, this`cur
      ensures Valid()
      ensures r.OutOfRange? <==> n > old(ReadSize())
      ensures r.NullCursor? <==> n == 0 && old(position) == capacity
      ensures !r.Got? ==> position == old(position)
      ensures r.Got? ==> position == old(position) + n <= |flat| && r.value == flat[old(position)..position]
    {
      if n > ReadSize() {
        return OutOfRange;
      }
      CursorNull();
      if cur == null {
        return NullCursor;
      }
      var out, c := Walk(cur, position, n);
      cur := c;
      position := position + n;
      return Got(out);
    }

    /** One round of the loop of read: as much of `rest` bytes as the block holds. */
    method TakeRound(c: Node?, ghost k: nat, npos: nat, q: nat, rest: nat) returns (bs: seq<Byte>, n: nat, next: Node?)
      requires Chain() && At(c, q, k, npos) && 0 < rest && q + rest <= capacity
      ensures n == Reach(base, npos, rest) && q + n <= |flat| && bs == flat[q..q + n]
      ensures At(next, q + n, if npos + n == base then k + 1 else k, if npos + n == base then 0 else npos + n)
    {
      Inside(k, npos, rest);
      var ncap := base - npos;
      n := if ncap >= rest then rest else ncap;
      bs := TakeChunk(c, k, npos, n, q);
      next := if npos + n == base then c.next else c;
    }

    /** The loop shared by both forms of read: copy `n` bytes from `p`, starting at the node that holds it. */
    method Walk(start: Node?, p: nat, n: nat) returns (out: seq<Byte>, c: Node?)
      requires Chain() && start == NodeAt(p) && p + n <= capacity
      ensures c == NodeAt(p + n) && p + n <= |flat| && out == flat[p..p + n]
    {
      hide Holds;
      ghost var k: nat, o: nat := AtPosition(p);
      var npos := OffsetOf(p, base);
      var q := p;
      c := start;
      out := [];
      while q < p + n
        invariant p <= q <= p + n && At(c, q, k, o)
        invariant q < p + n ==> npos == o
        invariant out == flat[p..q]
      {
        var bs, len;
        bs, len, c := TakeRound(c, k, npos, q, p + n - q);
        k, o := if npos + len == base then k + 1 else k, if npos + len == base then 0 else npos + len;
        SliceMore(flat, out, bs, p, q, q + len);
        out := out + bs;
        q := q + len;
        npos := 0;
      }
      AtIsNode(c, q, k, o);
    }

    /** ToString: the readable bytes, without moving the position. */
    method ToString() returns (s: seq<Byte>)
      requires Valid()
      ensures size <= |flat| && s == flat[position..size]
    {
      var c;
      s, c := Walk(cur, position, ReadSize());
    }

    // ---------------------------------------------------------------- scatter views

    /** The slices name exactly [p, p + n). */
    ghost predicate Name(iovs: seq<Iovec>, p: nat, n: nat)
      requires base > 0
      reads this`nodes
    {
      Tiles(nodes, base, iovs, BlockOf(p, base), OffsetOf(p, base), n)
    }

    /** The loop shared by GetReadBuffers and GetWriteBuffers, from the node that holds `p`. It runs off the list
        exactly when the range does. */
    method Tile(start: Node?, p: nat, n: nat) returns (r: Outcome<seq<Iovec>>)
      requires Chain() && start == NodeAt(p) && p <= capacity
      ensures !r.OutOfRange? && (r.Got? <==> p + n <= capacity)
      ensures r.Got? ==> Name(r.value, p, n)
    {
      hide Holds;
      ghost var k0: nat, o0: nat := AtPosition(p);
      ghost var k: nat := k0;
      var npos: nat := OffsetOf(p, base);
      var c := start;
      var rest := n;
      var iovs := [];
      assert forall tail: seq<Iovec> :: iovs + tail == tail;
      while rest > 0
        invariant 0 <= rest <= n && npos < base && p + (n - rest) <= capacity
        invariant rest > 0 ==> At(c, p + (n - rest), k, npos)
        invariant forall tail :: Tiles(nodes, base, tail, k, npos, rest) ==> Tiles(nodes, base, iovs + tail, k0, o0, n)
        decreases rest
      {
        if c == null {
          return NullCursor;
        }
        InsideBlock(k, npos);
        var len := Reach(base, npos, rest);
        var iov := Iovec(c.ptr, npos, len);
        TilePrepend(iovs, iov, k, npos, rest, k0, o0, n);
        iovs := iovs + [iov];
        if len < rest {
          c := c.next;
        }
        k := k + 1;
        rest := rest - len;
        npos := 0;
      }
      assert Tiles(nodes, base, [], k, npos, 0);
      assert iovs + [] == iovs;
      return Got(iovs);
    }

    /** A block that exists ends before the capacity does. */
    lemma InsideBlock(k: nat, o: nat)
      requires Chain() && k < |nodes| && o < base
      ensures Times(k, base) + base <= capacity && Times(k + 1, base) == Times(k, base) + base
    {
      TimesOrder(k, |nodes|, base);
    }

    lemma TilePrepend(iovs: seq<Iovec>, iov: Iovec, k: nat, o: nat, rest: nat, k0: nat, o0: nat, n: nat)
      requires o < base && o0 < base && rest > 0 && k < |nodes|
      requires iov == Iovec(nodes[k].ptr, o, Reach(base, o, rest))
      requires forall tail :: Tiles(nodes, base, tail, k, o, rest) ==> Tiles(nodes, base, iovs + tail, k0, o0, n)
      ensures forall tail :: Tiles(nodes, base, tail, k + 1, 0, rest - iov.len) ==>
              Tiles(nodes, base, iovs + [iov] + tail, k0, o0, n)
    {
      forall tail | Tiles(nodes, base, tail, k + 1, 0, rest - iov.len)
        ensures Tiles(nodes, base, iovs + [iov] + tail, k0, o0, n)
      {
        assert ([iov] + tail)[1..] == tail;
        assert Tiles(nodes, base, [iov] + tail, k, o, rest);
        assert iovs + ([iov] + tail) == iovs + [iov] + tail;
      }
    }

    /** What a list of slices holds. */
    static ghost function Held(iovs: seq<Iovec>): seq<Byte>
      requires forall v :: v in iovs ==> v.off + v.len <= v.mem.Length
      reads set v | v in iovs :: v.mem
    {
      if iovs == [] then []
      else assert iovs[0] in iovs; iovs[0].mem[iovs[0].off..iovs[0].off + iovs[0].len] + Held(iovs[1..])
    }

    /** The first slice of a tiling, and the rest of it. */
    lemma FirstTile(iovs: seq<Iovec>, k: nat, o: nat, n: nat)
      requires Chain() && o < base && 0 < n && Tiles(nodes, base, iovs, k, o, n)
      ensures iovs != [] && k < |nodes| && iovs[0] == Iovec(nodes[k].ptr, o, Reach(base, o, n))
      ensures iovs[0].off + iovs[0].len <= iovs[0].mem.Length
      ensures
        var p := Times(k, base) + o;
        var c := iovs[0].len;
        p + c <= |flat| && iovs[0].mem[o..o + c] == flat[p..p + c]
      ensures Tiles(nodes, base, iovs[1..], k + 1, 0, n - iovs[0].len)
      ensures Times(k + 1, base) == Times(k, base) + base
    {
      assert Holds(nodes[k].ptr[..], flat, k, base);
      BlockSlice(nodes[k].ptr[..], flat, k, o, iovs[0].len, base, Times(k, base) + o);
    }

    static lemma HeldFirst(iovs: seq<Iovec>)
      requires iovs != [] && iovs[0].off + iovs[0].len <= iovs[0].mem.Length
      requires forall v :: v in iovs[1..] ==> v.off + v.len <= v.mem.Length
      ensures forall v :: v in iovs ==> v.off + v.len <= v.mem.Length
      ensures Held(iovs) == iovs[0].mem[iovs[0].off..iovs[0].off + iovs[0].len] + Held(iovs[1..])
    {
      assert iovs == [iovs[0]] + iovs[1..];
    }

    /** Slices that tile a range hold exactly that range of the flat content. */
    lemma {:induction false} TilesHold(iovs: seq<Iovec>, k: nat, o: nat, n: nat)
      requires Chain() && o < base && Tiles(nodes, base, iovs, k, o, n) && Times(k, base) + o + n <= capacity
      ensures forall v :: v in iovs ==> v.off + v.len <= v.mem.Length
      ensures Times(k, base) + o + n <= |flat|
      ensures Held(iovs) == flat[Times(k, base) + o..Times(k, base) + o + n]
      decreases n
    {
      hide Held, Holds, Tiles, Times;
      if n == 0 {
        NoTiles(iovs, k, o);
      } else {
        FirstTile(iovs, k, o, n);
        var c, p := iovs[0].len, Times(k, base) + o;
        if c == n {
          NoTiles(iovs[1..], k + 1, 0);
        } else {
          TilesHold(iovs[1..], k + 1, 0, n - c);
        }
        HeldFirst(iovs);
        SliceJoin(flat, p, p + c, p + n);
      }
    }

    lemma NoTiles(iovs: seq<Iovec>, k: nat, o: nat)
      requires o < base && Tiles(nodes, base, iovs, k, o, 0)
      ensures iovs == [] && Held([]) == []
    {
    }

    lemma NamedHold(iovs: seq<Iovec>, p: nat, n: nat)
      requires Chain() && Name(iovs, p, n) && p + n <= capacity
      ensures forall v :: v in iovs ==> v.off + v.len <= v.mem.Length
      ensures p + n <= |flat| && Held(iovs) == flat[p..p + n]
    {
      SplitPosition(p, base);
      TilesHold(iovs, BlockOf(p, base), OffsetOf(p, base), n);
    }

    /** GetReadBuffers(buffers, len) */
    method GetReadBuffers(len: nat) returns (iovs: seq<Iovec>, n: nat)
      requires Valid()
      ensures n == (if len > ReadSize() then ReadSize() else len)
      ensures Name(iovs, position, n)
      ensures forall v :: v in iovs ==> v.off + v.len <= v.mem.Length
      ensures position + n <= |flat| && Held(iovs) == flat[position..position + n]
    {
      n := if len > ReadSize() then ReadSize() else len;
      var r := Tile(cur, position, n);
      iovs := r.value;
      NamedHold(iovs, position, n);
    }

    /** GetReadBuffers(buffers, len, position): walks from the root. The length is cut to what is readable at the
        current position, so from a later position the walk may run off the list. */
    method GetReadBuffersFrom(len: nat, from: nat) returns (r: Outcome<seq<Iovec>>, n: nat)
      requires Valid()
      ensures n == (if len > ReadSize() then ReadSize() else len)
      ensures !r.OutOfRange? && (r.NullCursor? <==> n > 0 && from + n > capacity)
      ensures n == 0 ==> r == Got([])
      ensures r.Got? ==> forall v :: v in r.value ==> v.off + v.len <= v.mem.Length
      ensures r.Got? && n > 0 ==> from + n <= |flat| && Name(r.value, from, n) && Held(r.value) == flat[from..from + n]
    {
      n := if len > ReadSize() then ReadSize() else len;
      if n == 0 {
        return Got([]), n;
      }
      var count := BlockOf(from, base);
      SplitPosition(from, base);
      var off, c := NthNode(count);
      if off || c == null {
        Beyond(count);
        return NullCursor, n;
      }
      InsideBlock(count, 0);
      r := Tile(c, from, n);
      if r.Got? {
        NamedHold(r.value, from, n);
      }
    }

    /** Blocks from number `k` on lie beyond the capacity. */
    lemma Beyond(k: nat)
      requires Chain() && k >= |nodes|
      ensures Times(k, base) >= capacity
    {
      if k > |nodes| {
        TimesOrder(|nodes|, k, base);
      }
    }

    /** Follow `next` i times from the root; `off` says that this went through a null pointer. */
    method NthNode(i: nat) returns (off: bool, c: Node?)
      requires Chain()
      ensures off <==> i > |nodes|
      ensures !off ==> c == if i < |nodes| then nodes[i] else null
    {
      off := false;
      c := root;
      var count := i;
      while count > 0
        invariant 0 <= count <= i && i - count <= |nodes|
        invariant c == if i - count < |nodes| then nodes[i - count] else null
      {
        if c == null {
          off := true;
          return;
        }
        c := c.next;
        count := count - 1;
      }
    }

    /** GetWriteBuffers: makes room, hands out the slices, and does not move the position. */
    method GetWriteBuffers(len: nat) returns (iovs: seq<Iovec>)
      requires Valid()
      modifies this`capacity, this`cur, this`nodes, this`flat, nodes
      ensures Valid() && position == old(position) && size == old(size) && root == old(root)
      ensures capacity == old(capacity) + Times(old(Missing(len)), base) && position + len <= capacity
      ensures capacity == old(capacity) || capacity < position + len + base
      ensures old(nodes) <= nodes && old(flat) <= flat && NewNodesFresh()
      ensures Name(iovs, position, len)
    {
      AddCapacity(len);
      var r := Tile(cur, position, len);
      iovs := r.value;
    }

    /** Somebody else (readv) fills the slices in order, as far as `buf` goes. */
    method FillSlices(iovs: seq<Iovec>, p: nat, n: nat, buf: seq<Byte>)
      requires Chain() && Name(iovs, p, n) && |buf| <= n && p + n <= capacity
      modifies this`flat, Arrays()
      ensures Chain() && p + |buf| <= |old(flat)| && Patched(old(flat), flat, p, buf)
    {
      hide Patched, Holds;
      ghost var k: nat, o: nat := AtPosition(p);
      ghost var flat0 := flat;
      var rest, bpos := iovs, 0;
      PatchNothing(flat, p, buf[..bpos]);
      while bpos < |buf|
        invariant 0 <= bpos <= |buf| && Chain() && o < base
        invariant bpos < |buf| ==> p + bpos == Times(k, base) + o && Tiles(nodes, base, rest, k, o, n - bpos)
        invariant Patched(flat0, flat, p, buf[..bpos])
      {
        bpos := FillNext(rest[0], k, o, n, buf, bpos, flat0, p);
        k, o := k + 1, 0;
        rest := rest[1..];
      }
      assert buf[..bpos] == buf;
    }

    /** The next slice, seen from the start of the filling. */
    method FillNext(v: Iovec, ghost k: nat, ghost o: nat, ghost n: nat, buf: seq<Byte>, bpos: nat,
                    ghost flat0: seq<Byte>,
                    ghost p: nat) returns (next: nat)
      requires Chain() && k < |nodes| && o < base && bpos < |buf| <= n
      requires v == Iovec(nodes[k].ptr, o, Reach(base, o, n - bpos))
      requires p + bpos == Times(k, base) + o && p + n <= capacity && Patched(flat0, flat, p, buf[..bpos])
      modifies this`flat, Arrays()
      ensures Chain() && bpos < next <= |buf| && Patched(flat0, flat, p, buf[..next])
      ensures next < |buf| ==> next == bpos + v.len && p + next == Times(k + 1, base)
    {
      hide Holds;
      next := if v.len <= |buf| - bpos then bpos + v.len else |buf|;
      ghost var flat1 := flat;
      PutChunk(v.mem, k, v.off, buf[bpos..next], p + bpos);
      PatchMore(flat0, flat1, flat, p, buf, bpos, next, buf[bpos..next]);
      InsideBlock(k, 0);
    }

    /** GetWriteBuffers for `len` bytes, filling the slices with `buf` and moving the position does what write does. */
    method WriteThroughBuffers(len: nat, buf: seq<Byte>)
      requires Valid() && |buf| <= len
      modifies this`position, this`capacity, this`size, this`cur, this`nodes, this`flat, nodes, Arrays()
      ensures Valid() && position == old(position) + |buf|
      ensures size == (if position > old(size) then position else old(size))
      ensures capacity == old(capacity) + Times(old(Missing(len)), base)
      ensures capacity == old(capacity) || capacity < old(position) + len + base
      ensures Overwrites(old(flat), flat, old(position), buf)
      ensures root == old(root) && old(nodes) <= nodes && NewNodesFresh()
    {
      hide Patched, Holds;
      var iovs := GetWriteBuffers(len);
      ghost var grown := flat;
      FillSlices(iovs, position, len, buf);
      var ok := SetPosition(position + |buf|);
      PrefixOverwrite(old(flat), grown, flat, old(position), buf);
    }
  }

  lemma SliceJoin(s: seq<Byte>, i: nat, j: nat, k: nat)
    requires i <= j <= k <= |s|
    ensures s[i..j] + s[j..k] == s[i..k]
  {
  }

  lemma SliceMore(s: seq<Byte>, out: seq<Byte>, bs: seq<Byte>, p: nat, q: nat, r: nat)
    requires p <= q <= r <= |s| && out == s[p..q] && bs == s[q..r]
    ensures out + bs == s[p..r]
  {
  }

  /** Growing and then filling is overwriting. */
  lemma PrefixOverwrite(before: seq<Byte>, grown: seq<Byte>, after: seq<Byte>, p: nat, buf: seq<Byte>)
    requires before <= grown && p <= |before| && Patched(grown, after, p, buf)
    ensures Overwrites(before, after, p, buf)
  {
  }
}
