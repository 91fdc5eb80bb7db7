/** The typed readers and writers of ByteArray, on the block list: each writer puts the encoding of its value at
    the position, each reader does what `Wire.Decode` says of the unread bytes, and a whole message comes
    back. */
module Messages {
  import opened Bytes
  import opened Blocks
  import opened Codec
  import opened Wire
  import opened WireFormat
  import opened ByteArrays

  /** Reading goes on from here. */
  ghost function Unread(ba: ByteArray): seq<Byte>
    requires ba.Valid()
    reads ba, ba.nodes, ba.Arrays()
  {
    ba.flat[ba.position..ba.size]
  }

  /** The written bytes end where the blocks end. */
  ghost predicate Full(ba: ByteArray)
    reads ba
  {
    ba.size == ba.capacity
  }

  /** What a writer of `bs` does to the array. */
  twostate predicate Wrote(ba: ByteArray, bs: seq<Byte>)
    reads ba, ba.nodes, ba.Arrays()
  {
    && ba.Valid() && ba.position == old(ba.position) + |bs|
    && ba.size == (if ba.position > old(ba.size) then ba.position else old(ba.size))
    && (ba.capacity == old(ba.capacity) || ba.capacity < ba.position + ba.base)
    && Overwrites(old(ba.flat), ba.flat, old(ba.position), bs)
    && ba.endian == old(ba.endian)
    && ba.NewNodesFresh()
  }

  lemma OverwriteTwice(a: seq<Byte>, b: seq<Byte>, c: seq<Byte>, p: nat, x: seq<Byte>, y: seq<Byte>)
    requires Overwrites(a, b, p, x) && Overwrites(b, c, p + |x|, y)
    ensures Overwrites(a, c, p, x + y)
  {
    assert c[..p] == c[..p + |x|][..p];
    assert c[p..p + |x|] == c[..p + |x|][p..];
    assert c[p..p + |x + y|] == c[p..p + |x|] + c[p + |x|..p + |x| + |y|];
  }

  // ---------------------------------------------------------------- writers

  /** WriteFuint8/16/32/64 of an unsigned value of `n` bytes, on a machine of byte order `host`. */
  method WriteFixed(ba: ByteArray, host: Order, v: nat, n: nat)
    requires ba.Valid() && v < Pow2(8 * n)
    modifies ba, ba.nodes, ba.Arrays()
    ensures Wrote(ba, Image(old(ba.endian), v, n))
  {
    WrittenOnAnyHost(host, ba.endian, v, n);
    ba.Write(Written(host, ba.endian, v, n));
  }

  /** WriteUint32/64: the groups of seven bits go to a buffer of 5 or 10 bytes, which is always enough. */
  method WriteVaruint(ba: ByteArray, v: nat, wide: bool)
    requires ba.Valid() && v < Pow2(VarBits(wide))
    modifies ba, ba.nodes, ba.Arrays()
    ensures Wrote(ba, Codec.Varint(v))
  {
    var tmp, i := Groups(v, wide);
    ba.Write(tmp[..i]);
  }

  method Groups(v: nat, wide: bool) returns (tmp: array<Byte>, i: nat)
    requires v < Pow2(VarBits(wide))
    ensures fresh(tmp) && tmp.Length == (if wide then 10 else 5) && i <= tmp.Length
    ensures tmp[..i] == Codec.Varint(v)
  {
    tmp := new Byte[if wide then 10 else 5];
    i := 0;
    var value := v;
    VarintTotals(v);
    while value >= 0x80
      invariant 0 <= i && i + |Codec.Varint(value)| <= tmp.Length && tmp[..i] + Codec.Varint(value) == Codec.Varint(v)
      decreases value
    {
      var b := value % 128 + 128;
      VarintMore(tmp[..i], value);
      tmp[i] := b;
      assert tmp[..i + 1] == tmp[..i] + [b];
      i := i + 1;
      value := value / 128;
    }
    tmp[i] := value;
    assert tmp[..i + 1] == tmp[..i] + [value];
    i := i + 1;
  }

  lemma VarintMore(done: seq<Byte>, value: nat)
    requires value >= 128
    ensures done + Codec.Varint(value) == done + [value % 128 + 128] + Codec.Varint(value / 128)
  {
  }

  method WritePrefix(ba: ByteArray, host: Order, p: Prefix, len: nat)
    requires ba.Valid()
    modifies ba, ba.nodes, ba.Arrays()
    ensures Wrote(ba, PrefixBytes(old(ba.endian), p, len))
  {
    if p.Vint? {
      WriteVaruint(ba, Unsigned(len, 64), true);
    } else {
      WriteFixed(ba, host, Unsigned(len, p.Width().Bits()), p.Width().Bytes());
    }
  }

  /** WriteStringF16/F32/F64/Vint */
  method WriteText(ba: ByteArray, host: Order, p: Prefix, s: seq<Byte>)
    requires ba.Valid()
    modifies ba, ba.nodes, ba.Arrays()
    ensures Wrote(ba, PrefixBytes(old(ba.endian), p, |s|) + s)
  {
    hide Overwrites, PrefixBytes, Times, Holds;
    ghost var flat0, p0 := ba.flat, ba.position;
    ghost var head := PrefixBytes(ba.endian, p, |s|);
    WritePrefix(ba, host, p, |s|);
    ghost var flat1 := ba.flat;
    ba.Write(s);
    OverwriteTwice(flat0, flat1, ba.flat, p0, head, s);
  }

  method WriteValue(ba: ByteArray, host: Order, k: Kind, v: Value)
    requires ba.Valid() && Typed(k, v)
    modifies ba, ba.nodes, ba.Arrays()
    ensures Wrote(ba, Encode(old(ba.endian), k, v))
  {
    match k
    case Fuint(w) => WriteFixed(ba, host, v.n, w.Bytes());
    case Fint(w) => WriteFixed(ba, host, Unsigned(v.n, w.Bits()), w.Bytes());
    case Float => WriteFixed(ba, host, v.n, 4);
    case Double => WriteFixed(ba, host, v.n, 8);
    case Varuint(wide) => WriteVaruint(ba, v.n, wide);
    case Varint(wide) => WriteVaruint(ba, EncodeZigzag(v.n, VarBits(wide)), wide);
    case Text(p) => WriteText(ba, host, p, v.s);
  }

  // ---------------------------------------------------------------- readers

  /** The first `n` unread bytes are the ones at the position. */
  lemma UnreadSplit(flat: seq<Byte>, p: nat, size: nat, n: nat)
    requires p <= size <= |flat| && n <= size - p
    ensures flat[p..size][..n] == flat[p..p + n] && flat[p..size][n..] == flat[p + n..size]
  {
  }

  /** A reader that got `n` bytes further. */
  twostate predicate Advanced(ba: ByteArray, n: nat)
    reads ba, ba.nodes, ba.Arrays()
  {
    ba.Valid() && ba.position == old(ba.position) + n
  }

  method ReadBytes(ba: ByteArray, n: nat) returns (r: Outcome<seq<Byte>>)
    requires ba.Valid()
    modifies ba`position, ba`cur
    ensures var d := ReadRaw(n, old(Unread(ba)), Full(ba)); r == d.0 && Advanced(ba, d.1)
  {
    ghost var p0 := ba.position;
    r := ba.Read(n);
    if r.Got? {
      UnreadSplit(ba.flat, p0, ba.size, n);
    }
  }

  /** ReadFuint8/16/32/64 */
  method ReadFixedFrom(ba: ByteArray, host: Order, n: nat) returns (r: Outcome<nat>)
    requires ba.Valid() && n > 0
    modifies ba`position, ba`cur
    ensures var d := ReadFixed(ba.endian, n, old(Unread(ba))); r == d.0 && Advanced(ba, d.1)
  {
    var raw := ReadBytes(ba, n);
    if raw.Got? {
      LoadedOnAnyHost(host, ba.endian, raw.value);
      r := Got(Loaded(host, ba.endian, raw.value));
    } else {
      r := OutOfRange;
    }
  }

  /** x << i */
  function Shifted(x: nat, i: nat): nat {
    x * Pow2(i)
  }

  /** What the varint loop will have returned, when `acc` is the result so far, `i` the bits and `j` the bytes taken
      and `d` what the rest comes to. */
  ghost function Resumed(acc: nat, i: nat, j: nat, d: (Outcome<nat>, nat)): (Outcome<nat>, nat) {
    (if d.0.Got? then Got(acc + Shifted(d.0.value, i)) else d.0, j + d.1)
  }

  lemma ShiftedSum(low: nat, i: nat, high: nat)
    ensures Shifted(low + 128 * high, i) == Shifted(low, i) + Shifted(high, i + 7)
  {
    Pow2At7(i);
    var m := Pow2(i);
    assert (low + 128 * high) * m == low * m + high * (128 * m);
  }

  /** Each group lies above the bits read before, so `|=` adds it. */
  lemma GroupsAreDisjoint(acc: nat, low: nat, i: nat)
    requires acc < Pow2(i) && low < 128
    ensures acc + Shifted(low, i) < Pow2(i + 7)
  {
    Pow2At7(i);
    var m := Pow2(i);
    assert low * m <= 127 * m;
  }

  lemma GroupStep(u: seq<Byte>, bits: nat, acc: nat, i: nat, j: nat, low: nat)
    requires u != [] && bits > 0 && low == Unsigned(u[0] % 128, bits)
    ensures Resumed(acc, i, j, ReadVarint(u, bits)) ==
            if u[0] < 128 then (Got(acc + Shifted(low, i)), j + 1)
            else Resumed(acc + Shifted(low, i), i + 7, j + 1, ReadVarint(u[1..], bits - 7))
  {
    hide Unsigned, Shifted;
    var d := ReadVarint(u[1..], bits - 7);
    if u[0] >= 128 && d.0.Got? {
      ShiftedSum(low, i, d.0.value);
    }
  }

  /** ReadFuint8 */
  method ReadByte(ba: ByteArray) returns (r: Outcome<Byte>)
    requires ba.Valid()
    modifies ba`position, ba`cur
    ensures var u := old(Unread(ba));
            if u == [] then r == OutOfRange && Advanced(ba, 0) && Unread(ba) == u
            else r == Got(u[0]) && Advanced(ba, 1) && Unread(ba) == u[1..]
  {
    var raw := ReadBytes(ba, 1);
    r := if raw.Got? then Got(raw.value[0]) else OutOfRange;
  }

  /** ReadUint32/64 */
  method ReadVaruint(ba: ByteArray, wide: bool) returns (r: Outcome<nat>)
    requires ba.Valid()
    modifies ba`position, ba`cur
    ensures var d := ReadVarint(old(Unread(ba)), VarBits(wide)); r == d.0 && Advanced(ba, d.1)
  {
    hide Unsigned, Shifted, ReadVarint, ByteArray.Chain;
    var bits, result: nat, i: nat := VarBits(wide), 0, 0;
    ghost var j: nat := 0;
    ShiftedNot(ReadVarint(Unread(ba), bits));
    while i < bits
      invariant ba.Valid() && ba.position == old(ba.position) + j && result < Pow2(i)
      invariant ReadVarint(old(Unread(ba)), bits) == Resumed(result, i, j, ReadVarint(Unread(ba), bits - i))
    {
      ghost var u := Unread(ba);
      var b := ReadByte(ba);
      if !b.Got? {
        VarintEnds(u, bits - i);
        return OutOfRange;
      }
      var low := Unsigned(b.value % 128, bits - i);
      GroupStep(u, bits - i, result, i, j, low);
      GroupsAreDisjoint(result, low, i);
      result := result + Shifted(low, i);
      j := j + 1;
      if b.value < 128 {
        return Got(result);
      }
      i := i + 7;
    }
    VarintEnds(Unread(ba), bits - i);
    ShiftedNothing(i);
    return Got(result);
  }

  lemma ShiftedNot(d: (Outcome<nat>, nat))
    ensures d.0.OutOfRange? || d.0.Got? ==> Resumed(0, 0, 0, d) == d
  {
  }

  lemma VarintEnds(u: seq<Byte>, bits: int)
    ensures bits <= 0 ==> ReadVarint(u, bits) == (Got(0), 0)
    ensures bits > 0 && u == [] ==> ReadVarint(u, bits) == (OutOfRange, 0)
  {
  }

  lemma ShiftedNothing(i: nat)
    ensures Shifted(0, i) == 0
  {
  }

  method ReadPrefixFrom(ba: ByteArray, host: Order, p: Prefix) returns (r: Outcome<nat>)
    requires ba.Valid()
    modifies ba`position, ba`cur
    ensures var d := ReadPrefix(ba.endian, p, old(Unread(ba))); r == d.0 && Advanced(ba, d.1)
  {
    if p.Vint? {
      r := ReadVaruint(ba, true);
    } else {
      r := ReadFixedFrom(ba, host, p.Width().Bytes());
    }
  }

  /** ReadStringF16/F32/F64/Vint */
  method ReadText(ba: ByteArray, host: Order, p: Prefix) returns (r: Outcome<Value>)
    requires ba.Valid()
    modifies ba`position, ba`cur
    ensures var d := Decode(ba.endian, Text(p), old(Unread(ba)), Full(ba)); r == d.0 && Advanced(ba, d.1)
  {
    hide ReadPrefix, ReadRaw, ByteArray.Chain;
    ghost var u, p0, d := Unread(ba), ba.position, ReadPrefix(ba.endian, p, Unread(ba));
    var len := ReadPrefixFrom(ba, host, p);
    if !len.Got? {
      return OutOfRange;
    }
    AfterPrefix(ba, u, p0, d.1);
    var s := ReadBytes(ba, len.value);
    r := match s case Got(t) => Got(Str(t)) case OutOfRange => OutOfRange case NullCursor => NullCursor;
  }

  lemma AfterPrefix(ba: ByteArray, u: seq<Byte>, p0: nat, n: nat)
    requires ba.Valid() && p0 + n == ba.position && u == ba.flat[p0..ba.size] && n <= |u|
    ensures Unread(ba) == u[n..]
  {
  }

  method ReadValue(ba: ByteArray, host: Order, k: Kind) returns (r: Outcome<Value>)
    requires ba.Valid()
    modifies ba`position, ba`cur
    ensures var d := Decode(ba.endian, k, old(Unread(ba)), Full(ba)); r == d.0 && Advanced(ba, d.1)
  {
    hide ReadFixed, ReadVarint, ReadPrefix, ReadRaw, ByteArray.Chain, DecodeZigzag, Signed;
    if k.Text? {
      r := ReadText(ba, host, k.prefix);
    } else {
      var x;
      match k {
        case Fuint(w) => x := ReadFixedFrom(ba, host, w.Bytes());
        case Fint(w) => x := ReadFixedFrom(ba, host, w.Bytes());
        case Float => x := ReadFixedFrom(ba, host, 4);
        case Double => x := ReadFixedFrom(ba, host, 8);
        case Varuint(wide) => x := ReadVaruint(ba, wide);
        case Varint(wide) => x := ReadVaruint(ba, wide);
      }
      r := match x case OutOfRange => OutOfRange case NullCursor => NullCursor case Got(n) =>
        Got(Num(match k case Fint(w) => Signed(n, w.Bits())
                case Varint(wide) => DecodeZigzag(n, VarBits(wide)) case _ => n));
    }
  }

  // ---------------------------------------------------------------- whole messages

  /** Write the items one after the other at the end of the array. */
  method WriteAll(ba: ByteArray, host: Order, xs: seq<Item>)
    requires ba.Valid() && AllTyped(xs) && ba.position == ba.size == 0 && ba.capacity == ba.base
    modifies ba, ba.nodes, ba.Arrays()
    ensures ba.Valid() && ba.endian == old(ba.endian) && ba.NewNodesFresh()
    ensures ba.position == ba.size && ba.flat[..ba.size] == EncodeAll(ba.endian, xs)
    ensures ba.capacity == ba.base || ba.capacity < ba.size + ba.base
  {
    var i := 0;
    while i < |xs|
      invariant 0 <= i <= |xs| && ba.Valid() && ba.endian == old(ba.endian) && ba.NewNodesFresh()
      invariant ba.position == ba.size && ba.flat[..ba.size] + EncodeAll(ba.endian, xs[i..]) == EncodeAll(ba.endian, xs)
      invariant ba.capacity == ba.base || ba.capacity < ba.size + ba.base
    {
      WriteNext(ba, host, xs[i..]);
      assert xs[i..][1..] == xs[i + 1..];
      i := i + 1;
    }
    assert EncodeAll(ba.endian, xs[i..]) == [];
  }

  method WriteNext(ba: ByteArray, host: Order, xs: seq<Item>)
    requires ba.Valid() && xs != [] && AllTyped(xs) && ba.position == ba.size
    requires ba.capacity == ba.base || ba.capacity < ba.size + ba.base
    modifies ba, ba.nodes, ba.Arrays()
    ensures ba.Valid() && ba.endian == old(ba.endian) && ba.NewNodesFresh()
    ensures ba.position == ba.size
    ensures ba.flat[..ba.size] + EncodeAll(ba.endian, xs[1..]) == old(ba.flat[..ba.size]) + EncodeAll(ba.endian, xs)
    ensures ba.capacity == ba.base || ba.capacity < ba.size + ba.base
  {
    hide Encode, Typed;
    ghost var was, p0 := ba.flat, ba.size;
    ghost var bs := Encode(ba.endian, xs[0].k, xs[0].v);
    WriteValue(ba, host, xs[0].k, xs[0].v);
    assert ba.flat[..ba.size] == was[..p0] + bs;
    assert was[..p0] + bs + EncodeAll(ba.endian, xs[1..]) == was[..p0] + (bs + EncodeAll(ba.endian, xs[1..]));
  }

  /** What reading all will have come to, when `out` are the values and `j` the bytes read and `d` is what the rest
      comes to. */
  ghost function Prepended(out: seq<Value>, j: nat, d: (Outcome<seq<Value>>, nat)): (Outcome<seq<Value>>, nat) {
    (if d.0.Got? then Got(out + d.0.value) else d.0, j + d.1)
  }

  lemma PrependStep(e: Order, ks: seq<Kind>, u: seq<Byte>, full: bool, out: seq<Value>, j: nat)
    requires ks != []
    ensures var (v, n) := Decode(e, ks[0], u, full);
            Prepended(out, j, DecodeAll(e, ks, u, full)) ==
            match v
            case OutOfRange => (OutOfRange, j + n)
            case NullCursor => (NullCursor, j + n)
            case Got(x) => Prepended(out + [x], j + n, DecodeAll(e, ks[1..], u[n..], full))
  {
    hide Decode, DecodeAll;
    var (v, n) := Decode(e, ks[0], u, full);
    DecodeFirst(e, ks, u, full);
    if v.Got? {
      var d := DecodeAll(e, ks[1..], u[n..], full);
      if d.0.Got? {
        assert out + ([v.value] + d.0.value) == out + [v.value] + d.0.value;
      }
    }
  }

  /** DecodeAll, unfolded once. */
  lemma DecodeFirst(e: Order, ks: seq<Kind>, u: seq<Byte>, full: bool)
    requires ks != []
    ensures var (v, n) := Decode(e, ks[0], u, full);
            DecodeAll(e, ks, u, full) ==
            match v
            case OutOfRange => (OutOfRange, n)
            case NullCursor => (NullCursor, n)
            case Got(x) =>
              var d := DecodeAll(e, ks[1..], u[n..], full);
              (if d.0.Got? then Got([x] + d.0.value) else d.0, n + d.1)
  {
    hide Decode;
  }

  method ReadAll(ba: ByteArray, host: Order, ks: seq<Kind>) returns (r: Outcome<seq<Value>>)
    requires ba.Valid()
    modifies ba`position, ba`cur
    ensures var d := DecodeAll(ba.endian, ks, old(Unread(ba)), Full(ba)); r == d.0 && Advanced(ba, d.1)
  {
    hide Decode, ByteArray.Chain;
    var out := [];
    var i := 0;
    ghost var j: nat := 0;
    ghost var u0, full := Unread(ba), Full(ba);
    assert ks[0..] == ks;
    PrependNothing(DecodeAll(ba.endian, ks, u0, full));
    while i < |ks|
      invariant 0 <= i <= |ks| && ba.Valid() && ba.position == old(ba.position) + j
      invariant DecodeAll(ba.endian, ks, u0, full) == Prepended(out, j, DecodeAll(ba.endian, ks[i..], Unread(ba), full))
    {
      ghost var u, p := Unread(ba), ba.position;
      ghost var n: nat := Decode(ba.endian, ks[i], u, full).1;
      PrependStep(ba.endian, ks[i..], u, full, out, j);
      assert ks[i..][1..] == ks[i + 1..];
      var v := ReadValue(ba, host, ks[i]);
      AfterPrefix(ba, u, p, n);
      j := j + n;
      if v.OutOfRange? {
        return OutOfRange;
      } else if v.NullCursor? {
        return NullCursor;
      }
      out := out + [v.value];
      i := i + 1;
    }
    assert ks[i..] == [] && out + [] == out;
    return Got(out);
  }

  lemma PrependNothing(d: (Outcome<seq<Value>>, nat))
    ensures Prepended([], 0, d) == d
  {
    if d.0.Got? {
      assert [] + d.0.value == d.0.value;
    }
  }

  /** Blocks grown only as needed are full exactly when the written size is a multiple of the block size. */
  lemma FullIff(size: nat, capacity: nat, count: nat, base: nat)
    requires base > 0 && count > 0 && capacity == Times(count, base) && 0 < size <= capacity
    requires capacity == base || capacity < size + base
    ensures size == capacity <==> size % base == 0
  {
    SplitIsDivMod(size, base);
    SplitPosition(size, base);
    var q := BlockOf(size, base);
    if size == capacity {
      PositionOf(count, 0, base);
    } else if OffsetOf(size, base) == 0 {
      if q < count {
        TimesOrder(q, count, base);
      } else if count < q {
        TimesOrder(count, q, base);
      }
    }
  }

  lemma BlocksOf(ba: ByteArray)
    requires ba.Valid()
    ensures ba.base > 0 && |ba.nodes| > 0 && ba.capacity == Times(|ba.nodes|, ba.base) == |ba.flat|
  {
  }

  lemma EndsInSomething(xs: seq<Item>)
    requires EndsEmpty(xs)
    ensures xs != []
  {
  }

  /** A fresh array with a message in it, rewound. */
  method WriteMessage(base: nat, host: Order, little: bool, xs: seq<Item>) returns (ba: ByteArray)
    requires base > 0 && AllTyped(xs)
    ensures fresh(ba) && ba.Valid() && ba.position == 0 && ba.endian == (if little then Little else Big)
    ensures Unread(ba) == EncodeAll(ba.endian, xs)
    ensures xs != [] ==> (Full(ba) <==> |EncodeAll(ba.endian, xs)| % base == 0)
  {
    hide Encode, EncodeAll, Typed;
    ba := new ByteArray(base);
    ba.SetIsLittleEndian(little);
    WriteAll(ba, host, xs);
    MoreIsEmpty(ba.endian, xs);
    BlocksOf(ba);
    if xs != [] {
      FullIff(ba.size, ba.capacity, |ba.nodes|, base);
    }
    var ok := ba.SetPosition(0);
    assert Unread(ba) == EncodeAll(ba.endian, xs);
  }

  /** The whole round trip on a fresh array: any block size, either byte order, any machine, any message. It fails in
      two cases only, which the caller can see from the message: a string is too long for its prefix, or the message
      ends in an empty string and fills its blocks. */
  method RoundTrip(base: nat, host: Order, little: bool, xs: seq<Item>) returns (r: Outcome<seq<Value>>, left: nat)
    requires base > 0 && AllTyped(xs)
    ensures var total := |EncodeAll(if little then Little else Big, xs)|;
            && (r == Got(Values(xs)) <==> ShortStrings(xs) && !(EndsEmpty(xs) && total % base == 0))
            && (ShortStrings(xs) ==>
                  left == 0 && r == if EndsEmpty(xs) && total % base == 0 then NullCursor else Got(Values(xs)))
  {
    hide ShortStrings, Decode, DecodeAll, Encode, EncodeAll, Typed, Fits, EndsEmpty, ByteArray.Chain;
    var ba := WriteMessage(base, host, little, xs);
    BlocksOf(ba);
    if EndsEmpty(xs) {
      EndsInSomething(xs);
    }
    ShortFits(xs);
    MessageExactly(ba.endian, xs, Full(ba));
    if ShortStrings(xs) {
      MessageRoundTrip(ba.endian, xs, Full(ba));
    }
    r := ReadAll(ba, host, Kinds(xs));
    left := ba.ReadSize();
  }
}
