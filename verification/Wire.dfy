/** The typed values a ByteArray carries: their bytes, the reader of each type, and the message round trip on
    byte sequences. */
module Wire {
  import opened Bytes
  import opened Codec

  datatype Width = W8 | W16 | W32 | W64 {
    function Bytes(): nat {
      match this case W8 => 1 case W16 => 2 case W32 => 4 case W64 => 8
    }
    function Bits(): nat {
      8 * Bytes()
    }
  }

  /** One constructor for each family of reader/writer pairs. Varint and Zigzag exist for 32 and 64 bits,
      Text with a prefix of 16, 32 or 64 bits. Float and double travel as their bit patterns. */
  datatype Kind =
    | Fuint(w: Width)
    | Fint(w: Width)
    | Float
    | Double
    | Varuint(wide: bool)
    | Varint(wide: bool)
    | Text(prefix: Prefix)

  datatype Prefix = F16 | F32 | F64 | Vint {
    function Width(): Width {
      match this case F16 => W16 case F32 => W32 case _ => W64
    }
  }

  datatype Value = Num(n: int) | Str(s: seq<Byte>)

  function VarBits(wide: bool): nat {
    if wide then 64 else 32
  }

  /** The C++ parameter types. */
  ghost predicate Typed(k: Kind, v: Value) {
    match k
    case Fuint(w) => v.Num? && 0 <= v.n < Pow2(w.Bits())
    case Fint(w) => v.Num? && IsSigned(v.n, w.Bits())
    case Float => v.Num? && 0 <= v.n < Pow2(32)
    case Double => v.Num? && 0 <= v.n < Pow2(64)
    case Varuint(wide) => v.Num? && 0 <= v.n < Pow2(VarBits(wide))
    case Varint(wide) => v.Num? && IsSigned(v.n, VarBits(wide))
    case Text(_) => v.Str?
  }

  /** The length fits its prefix. */
  ghost predicate Fits(k: Kind, v: Value) {
    k.Text? && v.Str? ==> |v.s| < Pow2(k.prefix.Width().Bits())
  }

  function PrefixBytes(e: Order, p: Prefix, len: nat): seq<Byte> {
    if p.Vint? then Codec.Varint(Unsigned(len, 64)) else Image(e, Unsigned(len, p.Width().Bits()), p.Width().Bytes())
  }

  /** What the writer of kind `k` appends. The length of a string is cut to the width of its prefix. */
  ghost function Encode(e: Order, k: Kind, v: Value): seq<Byte>
    requires Typed(k, v)
  {
    match k
    case Fuint(w) => Image(e, v.n, w.Bytes())
    case Fint(w) => Image(e, Unsigned(v.n, w.Bits()), w.Bytes())
    case Float => Image(e, v.n, 4)
    case Double => Image(e, v.n, 8)
    case Varuint(wide) => Codec.Varint(v.n)
    case Varint(wide) => Codec.Varint(EncodeZigzag(v.n, VarBits(wide)))
    case Text(p) => PrefixBytes(e, p, |v.s|) + v.s
  }

  /** ReadFuintN of the unread bytes: what comes out and how many are consumed. */
  function ReadFixed(e: Order, n: nat, bs: seq<Byte>): (r: (Outcome<nat>, nat))
    ensures r.1 <= |bs| && !r.0.NullCursor?
  {
    if n > |bs| then (OutOfRange, 0) else (Got(FromImage(e, bs[..n])), n)
  }

  function ReadPrefix(e: Order, p: Prefix, bs: seq<Byte>): (r: (Outcome<nat>, nat))
    ensures r.1 <= |bs| && !r.0.NullCursor?
  {
    if p.Vint? then ReadVarint(bs, 64) else ReadFixed(e, p.Width().Bytes(), bs)
  }

  /** `n` raw bytes. `full` says that the written bytes end exactly where the blocks end; there a read of nothing
      finds no block. */
  function ReadRaw(n: nat, bs: seq<Byte>, full: bool): (r: (Outcome<seq<Byte>>, nat))
    ensures r.1 <= |bs|
  {
    if n > |bs| then (OutOfRange, 0)
    else if n == 0 && bs == [] && full then (NullCursor, 0)
    else (Got(bs[..n]), n)
  }

  function Mapped(r: Outcome<nat>, f: nat -> int): Outcome<Value> {
    match r
    case Got(x) => Got(Num(f(x)))
    case OutOfRange => OutOfRange
    case NullCursor => NullCursor
  }

  /** The reader of kind `k` on the unread bytes. */
  function Decode(e: Order, k: Kind, bs: seq<Byte>, full: bool): (r: (Outcome<Value>, nat))
    ensures r.1 <= |bs|
  {
    match k
    case Fuint(w) => var (r, n) := ReadFixed(e, w.Bytes(), bs); (Mapped(r, x => x), n)
    case Fint(w) => var (r, n) := ReadFixed(e, w.Bytes(), bs); (Mapped(r, x => Signed(x, w.Bits())), n)
    case Float => var (r, n) := ReadFixed(e, 4, bs); (Mapped(r, x => x), n)
    case Double => var (r, n) := ReadFixed(e, 8, bs); (Mapped(r, x => x), n)
    case Varuint(wide) => var (r, n) := ReadVarint(bs, VarBits(wide)); (Mapped(r, x => x), n)
    case Varint(wide) => var (r, n) := ReadVarint(bs, VarBits(wide));
      (Mapped(r, (x: nat) => DecodeZigzag(x, VarBits(wide))), n)
    case Text(p) =>
      var (len, n) := ReadPrefix(e, p, bs);
      if !len.Got? then (OutOfRange, n)
      else
        var (s, m) := ReadRaw(len.value, bs[n..], full);
        (match s case Got(t) => Got(Str(t)) case OutOfRange => OutOfRange case NullCursor => NullCursor, n + m)
  }

  // ---------------------------------------------------------------- one value

  lemma FixedRoundTrip(e: Order, v: nat, n: nat, rest: seq<Byte>)
    requires v < Pow2(8 * n)
    ensures ReadFixed(e, n, Image(e, v, n) + rest) == (Got(v), n)
  {
    ImageRoundTrip(e, v, n);
    assert (Image(e, v, n) + rest)[..n] == Image(e, v, n);
  }

  lemma PrefixRoundTrip(e: Order, p: Prefix, len: nat, rest: seq<Byte>)
    ensures ReadPrefix(e, p, PrefixBytes(e, p, len) + rest) ==
            (Got(Unsigned(len, p.Width().Bits())), |PrefixBytes(e, p, len)|)
  {
    if p.Vint? {
      VarintRoundTrip(Unsigned(len, 64), 64, rest);
    } else {
      FixedRoundTrip(e, Unsigned(len, p.Width().Bits()), p.Width().Bytes(), rest);
    }
  }

  lemma NumberRoundTrip(e: Order, k: Kind, v: Value, rest: seq<Byte>, full: bool)
    requires Typed(k, v) && !k.Text?
    ensures Decode(e, k, Encode(e, k, v) + rest, full) == (Got(v), |Encode(e, k, v)|)
  {
    match k
    case Fuint(w) =>
      FixedRoundTrip(e, v.n, w.Bytes(), rest);
    case Fint(w) =>
      FixedRoundTrip(e, Unsigned(v.n, w.Bits()), w.Bytes(), rest);
      SignedOfUnsigned(v.n, w.Bits());
    case Float =>
      FixedRoundTrip(e, v.n, 4, rest);
    case Double =>
      FixedRoundTrip(e, v.n, 8, rest);
    case Varuint(wide) =>
      VarintRoundTrip(v.n, VarBits(wide), rest);
    case Varint(wide) =>
      UnzigzagZigzag(v.n, VarBits(wide));
      VarintRoundTrip(EncodeZigzag(v.n, VarBits(wide)), VarBits(wide), rest);
  }

  /** What a string reads back as: itself cut to the length that the prefix can say. */
  lemma TextReadsBack(e: Order, p: Prefix, s: seq<Byte>, rest: seq<Byte>, full: bool)
    ensures var bs := Encode(e, Text(p), Str(s)) + rest;
            var len := Unsigned(|s|, p.Width().Bits());
            Decode(e, Text(p), bs, full) ==
            if full && s == [] && rest == [] then (NullCursor, |bs|)
            else (Got(Str(s[..len])), |PrefixBytes(e, p, |s|)| + len)
  {
    hide ReadPrefix, PrefixBytes, Unsigned;
    var head := PrefixBytes(e, p, |s|);
    var bs := Encode(e, Text(p), Str(s)) + rest;
    assert bs == head + (s + rest);
    PrefixRoundTrip(e, p, |s|, s + rest);
    assert bs[|head|..] == s + rest;
    var len := Unsigned(|s|, p.Width().Bits());
    assert (s + rest)[..len] == s[..len];
  }

  /** One value of any kind comes back, with exactly its bytes consumed, if and only if its length fits the
      prefix and it is not an empty string that ends both the message and the last block. */
  lemma ValueRoundTrip(e: Order, k: Kind, v: Value, rest: seq<Byte>, full: bool)
    requires Typed(k, v)
    ensures Decode(e, k, Encode(e, k, v) + rest, full) == (Got(v), |Encode(e, k, v)|)
            <==> Fits(k, v) && !(full && v == Str([]) && rest == [])
  {
    if k.Text? {
      TextReadsBack(e, k.prefix, v.s, rest, full);
      var len := Unsigned(|v.s|, k.prefix.Width().Bits());
      if len < |v.s| {
        assert |v.s[..len]| < |v.s|;
      } else {
        assert v.s[..len] == v.s;
      }
    } else {
      NumberRoundTrip(e, k, v, rest, full);
    }
  }

  // ---------------------------------------------------------------- messages

  datatype Item = Item(k: Kind, v: Value)

  ghost predicate AllTyped(xs: seq<Item>) {
    forall i :: 0 <= i < |xs| ==> Typed(xs[i].k, xs[i].v)
  }

  ghost predicate AllFit(xs: seq<Item>) {
    forall i :: 0 <= i < |xs| ==> Fits(xs[i].k, xs[i].v)
  }

  ghost function EncodeAll(e: Order, xs: seq<Item>): seq<Byte>
    requires AllTyped(xs)
  {
    if xs == [] then [] else Encode(e, xs[0].k, xs[0].v) + EncodeAll(e, xs[1..])
  }

  function Kinds(xs: seq<Item>): (ks: seq<Kind>)
    ensures |ks| == |xs| && forall i :: 0 <= i < |xs| ==> ks[i] == xs[i].k
  {
    seq(|xs|, i requires 0 <= i < |xs| => xs[i].k)
  }

  function Values(xs: seq<Item>): (vs: seq<Value>)
    ensures |vs| == |xs| && forall i :: 0 <= i < |xs| ==> vs[i] == xs[i].v
  {
    seq(|xs|, i requires 0 <= i < |xs| => xs[i].v)
  }

  /** Read one value after the other; a failed read ends it. */
  function DecodeAll(e: Order, ks: seq<Kind>, bs: seq<Byte>, full: bool): (r: (Outcome<seq<Value>>, nat))
    ensures r.1 <= |bs|
    decreases |ks|
  {
    if ks == [] then (Got([]), 0)
    else
      var (v, n) := Decode(e, ks[0], bs, full);
      match v
      case OutOfRange => (OutOfRange, n)
      case NullCursor => (NullCursor, n)
      case Got(x) =>
        var (vs, m) := DecodeAll(e, ks[1..], bs[n..], full);
        (if vs.Got? then Got([x] + vs.value) else vs, n + m)
  }

  /** A message ends in an empty string. */
  ghost predicate EndsEmpty(xs: seq<Item>) {
    xs != [] && xs[|xs| - 1].v == Str([])
  }

  /** Every encoded value takes at least one byte. */
  lemma EncodeNotEmpty(e: Order, k: Kind, v: Value)
    requires Typed(k, v)
    ensures Encode(e, k, v) != []
  {
  }

  /** What reading a message of values that fit comes to. */
  ghost function ReadBack(xs: seq<Item>, full: bool): Outcome<seq<Value>> {
    if full && EndsEmpty(xs) then NullCursor else Got(Values(xs))
  }

  /** A message of values that fit comes back, all of it consumed, exactly when it does not end in an empty
      string at the end of the last block. */
  lemma {:induction false} MessageRoundTrip(e: Order, xs: seq<Item>, full: bool)
    requires AllTyped(xs) && AllFit(xs)
    ensures DecodeAll(e, Kinds(xs), EncodeAll(e, xs), full) == (ReadBack(xs, full), |EncodeAll(e, xs)|)
  {
    hide Decode, Encode, Typed;
    if xs == [] {
      assert Kinds(xs) == [] && Values(xs) == [];
    } else {
      var x, tail := xs[0], xs[1..];
      var more := EncodeAll(e, tail);
      MessageRoundTrip(e, tail, full);
      StepReadsBack(e, x, more, full);
      MoreIsEmpty(e, tail);
      var v := if full && x.v == Str([]) && more == [] then NullCursor else Got(x.v);
      assert Kinds(xs)[1..] == Kinds(tail);
      DecodeStep(e, Kinds(xs), Encode(e, x.k, x.v), more, full, v, (ReadBack(tail, full), |more|));
      ReadBackStep(xs, full, v);
      assert EncodeAll(e, xs) == Encode(e, x.k, x.v) + more;
      if v.NullCursor? {
        assert more == [];
        assert ReadBack(xs, full) == NullCursor;
      } else if ReadBack(tail, full).Got? {
        assert ReadBack(xs, full) == Got([v.value] + ReadBack(tail, full).value);
      } else {
        assert ReadBack(xs, full) == ReadBack(tail, full);
      }
    }
  }

  lemma ReadBackStep(xs: seq<Item>, full: bool, v: Outcome<Value>)
    requires xs != []
    requires v == if full && xs[0].v == Str([]) && xs[1..] == [] then NullCursor else Got(xs[0].v)
    ensures ReadBack(xs, full) ==
            if v.NullCursor? then NullCursor
            else if ReadBack(xs[1..], full).Got? then Got([v.value] + ReadBack(xs[1..], full).value)
            else ReadBack(xs[1..], full)
    ensures v.NullCursor? ==> xs[1..] == []
  {
    assert [xs[0].v] + Values(xs[1..]) == Values(xs);
    if xs[1..] != [] {
      assert EndsEmpty(xs) <==> EndsEmpty(xs[1..]);
    }
  }

  lemma MoreIsEmpty(e: Order, xs: seq<Item>)
    requires AllTyped(xs)
    ensures EncodeAll(e, xs) == [] <==> xs == []
  {
    if xs != [] {
      EncodeNotEmpty(e, xs[0].k, xs[0].v);
    }
  }

  lemma DecodeStep(e: Order, ks: seq<Kind>, head: seq<Byte>, more: seq<Byte>, full: bool,
                   v: Outcome<Value>, d: (Outcome<seq<Value>>, nat))
    requires ks != [] && !v.OutOfRange?
    requires Decode(e, ks[0], head + more, full) == (v, |head|) && DecodeAll(e, ks[1..], more, full) == d
    ensures DecodeAll(e, ks, head + more, full) ==
            if v.NullCursor? then (NullCursor, |head|)
            else (if d.0.Got? then Got([v.value] + d.0.value) else d.0, |head| + d.1)
  {
    hide Decode;
    assert (head + more)[|head|..] == more;
  }

  lemma StepReadsBack(e: Order, x: Item, more: seq<Byte>, full: bool)
    requires Typed(x.k, x.v) && Fits(x.k, x.v)
    ensures Decode(e, x.k, Encode(e, x.k, x.v) + more, full) ==
            (if full && x.v == Str([]) && more == [] then NullCursor else Got(x.v), |Encode(e, x.k, x.v)|)
  {
    hide Decode;
    if x.k.Text? {
      var p, s := x.k.prefix, x.v.s;
      TextReadsBack(e, p, s, more, full);
      assert Unsigned(|s|, p.Width().Bits()) == |s|;
      assert s[..|s|] == s;
      assert Encode(e, Text(p), Str(s)) == PrefixBytes(e, p, |s|) + s;
    } else {
      NumberRoundTrip(e, x.k, x.v, more, full);
    }
  }

  /** A string that does not fit its prefix comes back shorter. */
  lemma OversizeReadsBack(e: Order, x: Item, more: seq<Byte>, full: bool)
    requires Typed(x.k, x.v) && !Fits(x.k, x.v)
    ensures
      var d := Decode(e, x.k, Encode(e, x.k, x.v) + more, full);
      d.0.Got? && d.0.value != x.v
  {
    hide Decode;
    var p, s := x.k.prefix, x.v.s;
    TextReadsBack(e, p, s, more, full);
    var len := Unsigned(|s|, p.Width().Bits());
    assert |s[..len]| == len < |s|;
  }

  lemma {:induction false} OversizeGarbles(e: Order, xs: seq<Item>, full: bool)
    requires AllTyped(xs) && !AllFit(xs)
    ensures DecodeAll(e, Kinds(xs), EncodeAll(e, xs), full).0 != Got(Values(xs))
  {
    hide Decode, Encode, Typed, Fits;
    var x, tail := xs[0], xs[1..];
    var more := EncodeAll(e, tail);
    var bs := Encode(e, x.k, x.v) + more;
    var (v, n) := Decode(e, x.k, bs, full);
    assert Values(xs)[0] == x.v && Values(xs)[1..] == Values(tail) && Kinds(xs)[1..] == Kinds(tail);
    if Fits(x.k, x.v) {
      assert !AllFit(tail);
      MoreIsEmpty(e, tail);
      StepReadsBack(e, x, more, full);
      assert bs[n..] == more;
      OversizeGarbles(e, tail, full);
    } else {
      OversizeReadsBack(e, x, more, full);
    }
  }

  /** Any message comes back if and only if all its strings fit and it does not end in an empty string at the end of the
      last block. */
  lemma MessageExactly(e: Order, xs: seq<Item>, full: bool)
    requires AllTyped(xs)
    ensures DecodeAll(e, Kinds(xs), EncodeAll(e, xs), full).0 == Got(Values(xs))
            <==> AllFit(xs) && !(full && EndsEmpty(xs))
  {
    hide DecodeAll, EncodeAll, Typed, Fits;
    if AllFit(xs) {
      MessageRoundTrip(e, xs, full);
    } else {
      OversizeGarbles(e, xs, full);
    }
  }
}
