/** The reference for ByteArray: one flat sequence of cells with a position. Any sequence of calls on the block list
    gives the results that it gives on the flat buffer. */
module FlatBuffer {
  import opened Sums
  import opened Bytes
  import opened Blocks
  import opened ByteArrays

  datatype Op =
    | Write(bs: seq<Byte>)
    | Reserve(n: nat)                     // GetWriteBuffers (AddCapacity) and nothing else
    | Scatter(len: nat, bs: seq<Byte>)    // GetWriteBuffers, fill the slices as far as `bs` goes, SetPosition
    | Read(n: nat)
    | SetPosition(v: nat)
    | Clear
    | ToString
    | Gather(len: nat)                    // GetReadBuffers, copy out of the slices
    | GatherFrom(len: nat, from: nat)     // GetReadBuffers from a position

  /** A cell that was never written holds anything. */
  type Cell = Option<Byte>

  datatype Flat = Flat(position: nat, size: nat, cells: seq<Cell>)

  /** What a call gives back. A read may give cells that were never written. */
  datatype Result<T> = Done | Refused | Crash | Data(data: seq<T>)

  function Blank(base: nat): Flat {
    Flat(0, 0, seq(base, _ => None))
  }

  /** Room for `n` cells from the position on, in whole blocks. */
  function Grown(f: Flat, n: nat, base: nat): seq<Cell>
    requires base > 0 && f.position <= |f.cells|
  {
    var left := |f.cells| - f.position;
    if left >= n then f.cells else f.cells + seq(Ceil(n - left, base) * base, _ => None)
  }

  function Ceil(n: nat, base: nat): nat
    requires base > 0
  {
    (n + base - 1) / base
  }

  predicate Ok(f: Flat) {
    f.position <= f.size <= |f.cells|
  }

  function Overwritten(cells: seq<Cell>, p: nat, bs: seq<Byte>): seq<Cell> {
    seq(|cells|, i requires 0 <= i < |cells| => if p <= i < p + |bs| then Some(bs[i - p]) else cells[i])
  }

  function Max(a: nat, b: nat): nat {
    if a > b then a else b
  }

  function Min(a: nat, b: nat): nat {
    if a < b then a else b
  }

  function Step(f: Flat, op: Op, base: nat): (Flat, Result<Cell>)
    requires base > 0 && Ok(f) && base <= |f.cells|
  {
    match op
    case Write(bs) => (Wrote(f, |bs|, bs, base), Done)
    case Reserve(n) => (f.(cells := Grown(f, n, base)), Done)
    case Scatter(len, bs) => (Wrote(f, len, bs[..Min(len, |bs|)], base), Done)
    case Read(n) =>
      if n > f.size - f.position then (f, Refused)
      else if n == 0 && f.position == |f.cells| then (f, Crash)
      else (f.(position := f.position + n), Data(f.cells[f.position..f.position + n]))
    case SetPosition(v) =>
      if v > |f.cells| then (f, Refused) else (f.(position := v, size := Max(f.size, v)), Done)
    case Clear => (Flat(0, 0, f.cells[..base]), Done)
    case ToString => (f, Data(f.cells[f.position..f.size]))
    case Gather(len) => (f, Data(f.cells[f.position..f.position + Min(len, f.size - f.position)]))
    case GatherFrom(len, from) =>
      var n := Min(len, f.size - f.position);
      (f, if n == 0 then Data([]) else if from + n > |f.cells| then Crash else Data(f.cells[from..from + n]))
  }

  /** Make room for `len` cells and write `bs` at the position. */
  function Wrote(f: Flat, len: nat, bs: seq<Byte>, base: nat): Flat
    requires base > 0 && Ok(f) && |bs| <= len
  {
    var end := f.position + |bs|;
    Flat(end, Max(f.size, end), Overwritten(Grown(f, len, base), f.position, bs))
  }

  lemma StepOk(f: Flat, op: Op, base: nat)
    requires base > 0 && Ok(f) && base <= |f.cells|
    ensures Ok(Step(f, op, base).0) && base <= |Step(f, op, base).0.cells|
  {
    match op
    case Write(bs) => GrownRoom(f, |bs|, base);
    case Reserve(n) => GrownRoom(f, n, base);
    case Scatter(len, bs) => GrownRoom(f, len, base);
    case _ =>
  }

  lemma GrownRoom(f: Flat, n: nat, base: nat)
    requires base > 0 && Ok(f)
    ensures |Grown(f, n, base)| >= f.position + n && |Grown(f, n, base)| >= |f.cells|
  {
    var left := |f.cells| - f.position;
    if left < n {
      CeilDivExactly(n - left, base);
      TimesIsProduct(CeilDiv(n - left, base), base);
    }
  }

  /** The results of a sequence of calls; a crash ends it. */
  function Results(f: Flat, ops: seq<Op>, base: nat): seq<Result<Cell>>
    requires base > 0 && Ok(f) && base <= |f.cells|
    decreases |ops|
  {
    if ops == [] then []
    else
      var (f', r) := Step(f, ops[0], base);
      StepOk(f, ops[0], base);
      if r.Crash? then [r] else [r] + Results(f', ops[1..], base)
  }

  // ---------------------------------------------------------------- agreement

  ghost predicate Shows(cells: seq<Cell>, bytes: seq<Byte>) {
    |cells| == |bytes| && forall i :: 0 <= i < |cells| && cells[i].Some? ==> cells[i].value == bytes[i]
  }

  ghost predicate Matches(got: Result<Byte>, want: Result<Cell>) {
    match want
    case Done => got.Done?
    case Refused => got.Refused?
    case Crash => got.Crash?
    case Data(cells) => got.Data? && Shows(cells, got.data)
  }

  lemma CrashesTogether(got: Result<Byte>, want: Result<Cell>)
    requires Matches(got, want)
    ensures got.Crash? <==> want.Crash?
  {
  }

  ghost predicate AllMatch(rs: seq<Result<Byte>>, fs: seq<Result<Cell>>) {
    |rs| == |fs| && forall i :: 0 <= i < |rs| ==> Matches(rs[i], fs[i])
  }

  ghost predicate Sim(ba: ByteArray, f: Flat)
    reads ba, ba.nodes, ba.Arrays()
  {
    && ba.Valid() && f.position == ba.position && f.size == ba.size
    && |f.cells| == ba.capacity && Shows(f.cells, ba.flat)
    && Ok(f) && ba.base <= |f.cells|
  }

  lemma ShowsSlice(cells: seq<Cell>, bytes: seq<Byte>, i: nat, j: nat)
    requires Shows(cells, bytes) && i <= j <= |cells|
    ensures Shows(cells[i..j], bytes[i..j])
  {
  }

  /** Overwriting the bytes is overwriting the cells. */
  lemma ShowsWritten(f: Flat, flat: seq<Byte>, flat': seq<Byte>, len: nat, bs: seq<Byte>, base: nat)
    requires base > 0 && Ok(f) && Shows(f.cells, flat) && |bs| <= len
    requires Overwrites(flat, flat', f.position, bs) && |flat'| == |Grown(f, len, base)|
    ensures Shows(Wrote(f, len, bs, base).cells, flat')
  {
    var cells, p := Wrote(f, len, bs, base).cells, f.position;
    forall i | 0 <= i < |cells| && cells[i].Some?
      ensures cells[i].value == flat'[i]
    {
      if i < p {
        assert flat'[i] == flat'[..p][i] == flat[..p][i];
      } else if i < p + |bs| {
        assert flat'[i] == flat'[p..p + |bs|][i - p];
      }
    }
  }

  /** The capacity of the block list after a write is that of the flat buffer. */
  lemma CapacityAgrees(f: Flat, n: nat, base: nat)
    requires base > 0 && Ok(f)
    ensures |Grown(f, n, base)| == |f.cells| +
            if |f.cells| - f.position >= n then 0 else Times(CeilDiv(n - (|f.cells| - f.position), base), base)
  {
    var left := |f.cells| - f.position;
    if left < n {
      CeilDivExactly(n - left, base);
      TimesIsProduct(CeilDiv(n - left, base), base);
    }
  }

  // ---------------------------------------------------------------- the block list does the same

  /** write, or the slices of GetWriteBuffers: one specification for both. */
  method DoWrite(ba: ByteArray, len: nat, bs: seq<Byte>, scatter: bool, ghost f: Flat)
    requires Sim(ba, f) && |bs| <= len && (scatter || len == |bs|)
    modifies ba, ba.nodes, ba.Arrays()
    ensures ba.base > 0 && Sim(ba, Wrote(f, len, bs, ba.base)) && ba.NewNodesFresh()
  {
    hide Shows, Overwrites;
    ghost var flat0 := ba.flat;
    CapacityAgrees(f, len, ba.base);
    GrownRoom(f, len, ba.base);
    if scatter {
      ba.WriteThroughBuffers(len, bs);
    } else {
      ba.Write(bs);
    }
    ShowsWritten(f, flat0, ba.flat, len, bs, ba.base);
  }

  method DoReserve(ba: ByteArray, n: nat, ghost f: Flat)
    requires Sim(ba, f)
    modifies ba, ba.nodes
    ensures ba.base > 0 && Sim(ba, f.(cells := Grown(f, n, ba.base))) && ba.NewNodesFresh()
  {
    ghost var flat0 := ba.flat;
    CapacityAgrees(f, n, ba.base);
    GrownRoom(f, n, ba.base);
    var iovs := ba.GetWriteBuffers(n);
    assert forall i :: 0 <= i < |flat0| ==> ba.flat[i] == flat0[i];
  }

  method DoRead(ba: ByteArray, n: nat, ghost f: Flat) returns (r: Result<Byte>)
    requires Sim(ba, f)
    modifies ba`position, ba`cur
    ensures ba.base > 0 && Matches(r, Step(f, Read(n), ba.base).1) && Sim(ba, Step(f, Read(n), ba.base).0)
  {
    hide Shows;
    var x := ba.Read(n);
    r := match x case Got(bs) => Data(bs) case OutOfRange => Refused case NullCursor => Crash;
    if x.Got? {
      ShowsSlice(f.cells, ba.flat, f.position, f.position + n);
    }
  }

  method DoToString(ba: ByteArray, ghost f: Flat) returns (r: Result<Byte>)
    requires Sim(ba, f)
    ensures ba.base > 0 && Matches(r, Step(f, ToString, ba.base).1) && Step(f, ToString, ba.base).0 == f
  {
    hide Shows;
    var s := ba.ToString();
    r := Data(s);
    ShowsSlice(f.cells, ba.flat, f.position, f.size);
  }

  method DoGather(ba: ByteArray, len: nat, ghost f: Flat) returns (r: Result<Byte>)
    requires Sim(ba, f)
    ensures ba.base > 0 && Matches(r, Step(f, Gather(len), ba.base).1) && Step(f, Gather(len), ba.base).0 == f
  {
    hide Shows;
    var iovs, n := ba.GetReadBuffers(len);
    var s := CopyOut(iovs);
    r := Data(s);
    ShowsSlice(f.cells, ba.flat, f.position, f.position + n);
  }

  method DoGatherFrom(ba: ByteArray, len: nat, from: nat, ghost f: Flat) returns (r: Result<Byte>)
    requires Sim(ba, f)
    ensures ba.base > 0 && Matches(r, Step(f, GatherFrom(len, from), ba.base).1)
    ensures Step(f, GatherFrom(len, from), ba.base).0 == f
  {
    var x, n := ba.GetReadBuffersFrom(len, from);
    if x.Got? {
      var s := CopyOut(x.value);
      r := Data(s);
      if n > 0 {
        ShowsSlice(f.cells, ba.flat, from, from + n);
      }
    } else {
      r := Crash;
    }
  }

  /** writev of the slices. */
  method CopyOut(iovs: seq<Iovec>) returns (s: seq<Byte>)
    requires forall v :: v in iovs ==> v.off + v.len <= v.mem.Length
    ensures s == ByteArray.Held(iovs)
  {
    s := [];
    var rest := iovs;
    while rest != []
      invariant forall v :: v in rest ==> v in iovs
      invariant s + ByteArray.Held(rest) == ByteArray.Held(iovs)
      decreases |rest|
    {
      var v := rest[0];
      assert v in rest;
      var more := v.mem[v.off..v.off + v.len];
      assert s + (more + ByteArray.Held(rest[1..])) == (s + more) + ByteArray.Held(rest[1..]);
      s := s + more;
      rest := rest[1..];
    }
  }

  method DoMove(ba: ByteArray, op: Op, ghost f: Flat) returns (r: Result<Byte>)
    requires Sim(ba, f) && (op.SetPosition? || op.Clear?)
    modifies ba, ba.nodes
    ensures ba.base > 0 && Matches(r, Step(f, op, ba.base).1) && Sim(ba, Step(f, op, ba.base).0) && ba.NewNodesFresh()
  {
    if op.Clear? {
      ghost var flat0 := ba.flat;
      assert Holds(ba.nodes[0].ptr[..], ba.flat, 0, ba.base);
      ba.Clear();
      ShowsSlice(f.cells, flat0, 0, ba.base);
      assert flat0[0..ba.base] == flat0[..ba.base] && f.cells[0..ba.base] == f.cells[..ba.base];
      r := Done;
    } else {
      var ok := ba.SetPosition(op.v);
      r := if ok then Done else Refused;
    }
  }

  method DoOne(ba: ByteArray, op: Op, ghost f: Flat) returns (r: Result<Byte>)
    requires Sim(ba, f)
    modifies ba, ba.nodes, ba.Arrays()
    ensures ba.base > 0 && Matches(r, Step(f, op, ba.base).1) && Sim(ba, Step(f, op, ba.base).0) && ba.NewNodesFresh()
  {
    if op.Write? {
      DoWrite(ba, |op.bs|, op.bs, false, f);
      r := Done;
    } else if op.Scatter? {
      DoWrite(ba, op.len, op.bs[..Min(op.len, |op.bs|)], true, f);
      r := Done;
    } else if op.Reserve? {
      DoReserve(ba, op.n, f);
      r := Done;
    } else if op.SetPosition? || op.Clear? {
      r := DoMove(ba, op, f);
    } else if op.Read? {
      r := DoRead(ba, op.n, f);
    } else if op.ToString? {
      r := DoToString(ba, f);
    } else if op.Gather? {
      r := DoGather(ba, op.len, f);
    } else {
      r := DoGatherFrom(ba, op.len, op.from, f);
    }
  }

  /** Any sequence of calls on a fresh array gives what it gives on the flat buffer. */
  method Replay(base: nat, ops: seq<Op>) returns (rs: seq<Result<Byte>>)
    requires base > 0
    ensures AllMatch(rs, Results(Blank(base), ops, base))
  {
    hide Step, Matches, Results;
    var ba := new ByteArray(base);
    ghost var f := Blank(base);
    assert ops[0..] == ops;
    assert [] + Results(f, ops, base) == Results(f, ops, base);
    ghost var fs: seq<Result<Cell>> := [];
    rs := [];
    var i := 0;
    while i < |ops|
      invariant 0 <= i <= |ops| && fresh(ba) && ba.base == base && Sim(ba, f)
      invariant forall n :: n in ba.nodes ==> fresh(n) && fresh(n.ptr)
      invariant AllMatch(rs, fs) && Results(Blank(base), ops, base) == fs + Results(f, ops[i..], base)
    {
      ghost var d := Step(f, ops[i], base);
      assert ops[i..][0] == ops[i] && ops[i..][1..] == ops[i + 1..];
      var r := DoOne(ba, ops[i], f);
      rs := rs + [r];
      ResultsStep(f, ops[i..], base, fs);
      fs := fs + [d.1];
      CrashesTogether(r, d.1);
      if r.Crash? {
        assert fs + [] == fs;
        return;
      }
      f := d.0;
      i := i + 1;
    }
    ResultsEnd(f, ops[i..], base);
    assert fs + [] == fs;
  }

  lemma ResultsEnd(f: Flat, ops: seq<Op>, base: nat)
    requires base > 0 && Ok(f) && base <= |f.cells| && ops == []
    ensures Results(f, ops, base) == []
  {
  }

  lemma ResultsStep(f: Flat, ops: seq<Op>, base: nat, fs: seq<Result<Cell>>)
    requires base > 0 && Ok(f) && base <= |f.cells| && ops != []
    ensures Ok(Step(f, ops[0], base).0) && base <= |Step(f, ops[0], base).0.cells|
    ensures var d := Step(f, ops[0], base);
            fs + Results(f, ops, base) == fs + [d.1] + if d.1.Crash? then [] else Results(d.0, ops[1..], base)
  {
    StepOk(f, ops[0], base);
  }
}
