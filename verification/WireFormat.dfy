/** The bytes on the wire, with the numbers written out: how many there are, which byte stands where, and which values
    and strings come back. */
module WireFormat {
  import opened Bytes
  import opened Blocks
  import opened Codec
  import opened Wire

  /** 256 to the power i. */
  function Place(i: nat): (p: int)
    requires i < 8
    ensures p > 0
  {
    match i
    case 0 => 1
    case 1 => 0x100
    case 2 => 0x1_0000
    case 3 => 0x100_0000
    case 4 => 0x1_0000_0000
    case 5 => 0x100_0000_0000
    case 6 => 0x1_0000_0000_0000
    case 7 => 0x100_0000_0000_0000
  }

  /** `bs` is `v` in its n bytes: on a big-endian array the most significant comes first, on a little-endian one last.
      */
  ghost predicate Spells(e: Order, bs: seq<Byte>, v: int) {
    && |bs| <= 8
    && forall i :: 0 <= i < |bs| ==>
         bs[i] == match e case Big => v / Place(|bs| - 1 - i) % 256 case Little => v / Place(i) % 256
  }

  lemma Powers()
    ensures Pow2(8) == 0x100 && Pow2(16) == 0x1_0000 && Pow2(32) == 0x1_0000_0000
    ensures Pow2(64) == 0x1_0000_0000_0000_0000
  {
    assert Pow2(0) == 1;
    Pow2At8(0);
    Pow2At8(8);
    Pow2At8(16);
    Pow2At8(24);
    Pow2At8(32);
    Pow2At8(40);
    Pow2At8(48);
    Pow2At8(56);
  }

  lemma NextPlace(v: nat, i: nat)
    requires i < 7
    ensures v / 256 / Place(i) == v / Place(i + 1)
  {
    match i
    case 0 => case 1 => case 2 => case 3 => case 4 => case 5 => case 6 =>
  }

  lemma {:induction false} LittleSpells(v: nat, n: nat)
    requires n <= 8
    ensures Spells(Little, LittleBytes(v, n), v)
  {
    if n > 0 {
      LittleSpells(v / 256, n - 1);
      var rest := LittleBytes(v / 256, n - 1);
      forall i | 0 <= i < n
        ensures LittleBytes(v, n)[i] == v / Place(i) % 256
      {
        if i > 0 {
          assert LittleBytes(v, n)[i] == rest[i - 1];
          NextPlace(v, i - 1);
        }
      }
    }
  }

  lemma {:induction false} BigSpells(v: nat, n: nat)
    requires n <= 8
    ensures Spells(Big, BigBytes(v, n), v)
  {
    if n > 0 {
      BigSpells(v / 256, n - 1);
      var rest := BigBytes(v / 256, n - 1);
      forall i | 0 <= i < n
        ensures BigBytes(v, n)[i] == v / Place(n - 1 - i) % 256
      {
        if i < n - 1 {
          assert BigBytes(v, n)[i] == rest[i];
          NextPlace(v, n - 2 - i);
        }
      }
    }
  }

  lemma ImageSpells(e: Order, v: nat, n: nat)
    requires n <= 8
    ensures |Image(e, v, n)| == n && Spells(e, Image(e, v, n), v)
  {
    LittleSpells(v, n);
    BigSpells(v, n);
  }

  // ------------------------------------------------------------------ numbers

  /** WriteFuint8/16/32/64, WriteFloat and WriteDouble (bit patterns). */
  lemma UnsignedFormat(e: Order, k: Kind, x: int)
    requires Typed(k, Num(x)) && (k.Fuint? || k.Float? || k.Double?)
    ensures
      var bs := Encode(e, k, Num(x));
      && Spells(e, bs, x)
      && |bs| == match k case Fuint(W8) => 1 case Fuint(W16) => 2 case Fuint(W32) => 4 case Float => 4 case _ => 8
  {
    hide Image, Spells;
    match k {
      case Fuint(w) => ImageSpells(e, x, w.Bytes());
      case Float => ImageSpells(e, x, 4);
      case Double => ImageSpells(e, x, 8);
    }
  }

  /** WriteFint8/16/32/64: two's complement. */
  lemma SignedFormat(e: Order, w: Width, x: int)
    requires Typed(Fint(w), Num(x))
    ensures
      var bs := Encode(e, Fint(w), Num(x));
      match w
      case W8 => |bs| == 1 && Spells(e, bs, if x < 0 then x + 0x100 else x)
      case W16 => |bs| == 2 && Spells(e, bs, if x < 0 then x + 0x1_0000 else x)
      case W32 => |bs| == 4 && Spells(e, bs, if x < 0 then x + 0x1_0000_0000 else x)
      case W64 => |bs| == 8 && Spells(e, bs, if x < 0 then x + 0x1_0000_0000_0000_0000 else x)
  {
    hide Image, Spells, Unsigned, Pow2;
    Powers();
    Complement(x, w.Bits());
    ImageSpells(e, Unsigned(x, w.Bits()), w.Bytes());
  }

  lemma Complement(x: int, bits: nat)
    requires IsSigned(x, bits)
    ensures Unsigned(x, bits) == if x < 0 then x + Pow2(bits) else x
  {
    Residue(x, Pow2(bits), if x < 0 then 1 else 0);
  }

  /** The range of each number type. */
  lemma Ranges(k: Kind, x: int)
    ensures Typed(k, Num(x)) <==>
      match k
      case Fuint(W8) => 0 <= x < 0x100
      case Fuint(W16) => 0 <= x < 0x1_0000
      case Fuint(W32) => 0 <= x < 0x1_0000_0000
      case Fuint(W64) => 0 <= x < 0x1_0000_0000_0000_0000
      case Fint(W8) => -0x80 <= x < 0x80
      case Fint(W16) => -0x8000 <= x < 0x8000
      case Fint(W32) => -0x8000_0000 <= x < 0x8000_0000
      case Fint(W64) => -0x8000_0000_0000_0000 <= x < 0x8000_0000_0000_0000
      case Float => 0 <= x < 0x1_0000_0000
      case Double => 0 <= x < 0x1_0000_0000_0000_0000
      case Varuint(wide) => 0 <= x < if wide then 0x1_0000_0000_0000_0000 else 0x1_0000_0000
      case Varint(wide) =>
        if wide then -0x8000_0000_0000_0000 <= x < 0x8000_0000_0000_0000 else -0x8000_0000 <= x < 0x8000_0000
      case Text(_) => false
  {
    hide Pow2;
    Powers();
  }

  // ------------------------------------------------------------------ varints

  /** 128 to the power i. */
  function Group(i: nat): (p: int)
    ensures p > 0
  {
    if i == 0 then 1 else 128 * Group(i - 1)
  }

  /** Byte i of a varint holds bits 7i to 7i+6, and its top bit says whether more follow. */
  lemma {:induction false} VarintSpells(v: nat, i: nat)
    requires i < |Codec.Varint(v)|
    ensures Codec.Varint(v)[i] == v / Group(i) % 128 + if i < |Codec.Varint(v)| - 1 then 128 else 0
    decreases i
  {
    if v >= 128 && i > 0 {
      VarintSpells(v / 128, i - 1);
      assert Codec.Varint(v)[i] == Codec.Varint(v / 128)[i - 1];
      DivTwice(v, Group(i - 1));
    } else if v < 128 {
      assert v / Group(0) % 128 == v;
    }
  }

  lemma DivTwice(v: nat, g: nat)
    requires g > 0
    ensures v / 128 / g == v / (128 * g)
  {
    var q, r := v / 128, v % 128;
    var a, b := q / g, q % g;
    assert v == (a * g + b) * 128 + r == a * (128 * g) + (b * 128 + r);
    assert b * 128 + r < 128 * g;
    QuotientUnique(v, 128 * g, a, b * 128 + r);
  }

  /** Signed varints carry 2x, or -2x-1 for a negative x. */
  lemma VarFormat(e: Order, k: Kind, x: int)
    requires Typed(k, Num(x)) && (k.Varuint? || k.Varint?)
    ensures Encode(e, k, Num(x)) == Codec.Varint(if k.Varuint? then x else if x < 0 then -2 * x - 1 else 2 * x)
  {
    if k.Varint? { ZigzagIs(x, VarBits(k.wide)); }
  }

  // ------------------------------------------------------------------ strings

  lemma Remainder(v: nat, m: nat)
    requires m > 0
    ensures v % (256 * m) % 256 == v % 256 && v % (256 * m) / 256 == v / 256 % m
  {
    var r := v % (256 * m);
    var q := v / (256 * m);
    assert v == q * (256 * m) + r;
    assert q * (256 * m) == 256 * (q * m);
    assert v / 256 == q * m + r / 256;
    QuotientUnique(v / 256, m, q, r / 256);
  }

  /** Cutting a number to n bytes does not change its n bytes. */
  lemma {:induction false} CutLittle(v: nat, n: nat)
    ensures LittleBytes(v % Pow2(8 * n), n) == LittleBytes(v, n)
  {
    if n > 0 {
      Pow2At8(8 * (n - 1));
      Remainder(v, Pow2(8 * (n - 1)));
      CutLittle(v / 256, n - 1);
    }
  }

  lemma CutImage(e: Order, v: nat, n: nat)
    ensures Image(e, Unsigned(v, 8 * n), n) == Image(e, v, n)
  {
    CutLittle(v, n);
    BigIsBackwards(v, n);
    BigIsBackwards(Unsigned(v, 8 * n), n);
  }

  /** WriteStringF16/F32/F64: 2, 4 or 8 bytes of length, of which a longer string's upper bytes are lost, and then the
      string itself. */
  lemma TextFormat(e: Order, p: Prefix, s: seq<Byte>)
    requires !p.Vint?
    ensures
      var bs := Encode(e, Text(p), Str(s));
      var n := match p case F16 => 2 case F32 => 4 case _ => 8;
      && |bs| == n + |s| && Spells(e, bs[..n], |s|) && bs[n..] == s
  {
    var w := p.Width();
    CutImage(e, |s|, w.Bytes());
    ImageSpells(e, |s|, w.Bytes());
    var head := PrefixBytes(e, p, |s|);
    assert (head + s)[..|head|] == head && (head + s)[|head|..] == s;
  }

  /** WriteStringVint: the length as a varint, and then the string. */
  lemma VintTextFormat(e: Order, s: seq<Byte>)
    requires |s| < 0x1_0000_0000_0000_0000
    ensures Encode(e, Text(Vint), Str(s)) == Codec.Varint(|s|) + s
  {
    hide Pow2, Codec.Varint, Image;
    Powers();
  }

  /** A string is short enough for its kind of prefix. */
  predicate Short(k: Kind, v: Value) {
    k.Text? && v.Str? ==>
      |v.s| < match k.prefix
              case F16 => 0x1_0000
              case F32 => 0x1_0000_0000
              case F64 => 0x1_0000_0000_0000_0000
              case Vint => 0x1_0000_0000_0000_0000
  }

  ghost predicate ShortStrings(xs: seq<Item>) {
    forall i :: 0 <= i < |xs| ==> Short(xs[i].k, xs[i].v)
  }

  lemma ShortIsFit(k: Kind, v: Value)
    ensures Short(k, v) <==> Fits(k, v)
  {
    hide Pow2;
    Powers();
  }

  lemma ShortFits(xs: seq<Item>)
    ensures ShortStrings(xs) <==> AllFit(xs)
  {
    hide Short, Fits;
    forall i | 0 <= i < |xs|
      ensures Short(xs[i].k, xs[i].v) <==> Fits(xs[i].k, xs[i].v)
    {
      ShortIsFit(xs[i].k, xs[i].v);
    }
  }

  // ------------------------------------------------------------------ reading

  /** A fixed-width reader takes n bytes and gives the number that they spell; with fewer left it takes none. */
  lemma FixedReads(e: Order, n: nat, bs: seq<Byte>)
    requires n <= 8
    ensures
      var (r, k) := ReadFixed(e, n, bs);
      if |bs| < n then r == OutOfRange && k == 0 else r.Got? && k == n && Spells(e, bs[..n], r.value)
  {
    if n <= |bs| {
      var head := bs[..n];
      var v := FromImage(e, head);
      LittleBytesOf(head);
      FromBigIsBackwards(head);
      LittleBytesOf(Backwards(head));
      BigIsBackwards(v, n);
      BackwardsTwice(head);
      ImageSpells(e, v, n);
      assert Image(e, v, n) == head;
    }
  }

  /** The signed readers take the upper half of the range as negative. */
  lemma SignedReads(x: nat)
    ensures x < 0x100 ==> Signed(x, 8) == if x < 0x80 then x else x - 0x100
    ensures x < 0x1_0000 ==> Signed(x, 16) == if x < 0x8000 then x else x - 0x1_0000
    ensures x < 0x1_0000_0000 ==> Signed(x, 32) == if x < 0x8000_0000 then x else x - 0x1_0000_0000
    ensures x < 0x1_0000_0000_0000_0000 ==>
      Signed(x, 64) == if x < 0x8000_0000_0000_0000 then x else x - 0x1_0000_0000_0000_0000
  {
    hide Pow2, Unsigned;
    Powers();
  }

  /** The number that groups of seven bits spell, the first one lowest. */
  function Groups(bs: seq<Byte>): nat {
    if bs == [] then 0 else bs[0] % 128 + 128 * Groups(bs[1..])
  }

  /** How many bytes the varint loop takes: up to the first one below 128, and never more than `most`. */
  function Taken(bs: seq<Byte>, most: nat): (n: nat)
    ensures n <= |bs| && n <= most
  {
    if bs == [] || most == 0 then 0
    else if bs[0] < 128 then 1
    else 1 + Taken(bs[1..], most - 1)
  }

  /** It has seen the end: a byte below 128, or as many bytes as it ever takes. */
  predicate Ends(bs: seq<Byte>, most: nat) {
    most == 0 || (bs != [] && (bs[0] < 128 || Ends(bs[1..], most - 1)))
  }

  function Rounds(bits: nat): nat {
    (bits + 6) / 7
  }

  lemma GroupsCut(low: nat, high: nat, bits: nat)
    requires low < 128 && bits >= 7
    ensures Unsigned(low + 128 * high, bits) == low + 128 * Unsigned(high, bits - 7)
  {
    Pow2At7(bits - 7);
    var p := Pow2(bits - 7);
    var q, r := high / p, high % p;
    assert high == q * p + r;
    assert low + 128 * high == q * (128 * p) + (low + 128 * r);
    QuotientUnique(low + 128 * high, 128 * p, q, low + 128 * r);
  }

  /** The varint readers on any bytes: what they take, and that what exceeds the width is cut off. */
  lemma {:induction false} VarintReads(bs: seq<Byte>, bits: nat)
    ensures
      var n := Taken(bs, Rounds(bits));
      ReadVarint(bs, bits) ==
      if Ends(bs, Rounds(bits)) then (Got(Unsigned(Groups(bs[..n]), bits)), n) else (OutOfRange, |bs|)
    decreases |bs|
  {
    var n := Taken(bs, Rounds(bits));
    if bits == 0 {
      assert Pow2(0) == 1;
    } else if bs != [] {
      var low := bs[0] % 128;
      if bs[0] < 128 {
        assert bs[..1][1..] == [];
        assert Groups(bs[..1]) == low;
      } else if bits >= 7 {
        VarintReads(bs[1..], bits - 7);
        assert Rounds(bits) == 1 + Rounds(bits - 7);
        assert bs[..n][1..] == bs[1..][..n - 1];
        GroupsCut(low, Groups(bs[1..][..n - 1]), bits);
        SmallLow(low, bits);
      } else {
        assert Rounds(bits) == 1 && n == 1;
        assert bs[..1][1..] == [];
        assert Groups(bs[..1]) == low;
      }
    }
  }

  lemma SmallLow(low: nat, bits: nat)
    requires low < 128 && bits >= 7
    ensures Unsigned(low, bits) == low
  {
    Pow2Order(7, bits);
    Pow2At7(0);
  }

  /** ReadUint32 takes at most 5 bytes and ReadUint64 at most 10. */
  lemma RoundsOf()
    ensures Rounds(32) == 5 && Rounds(64) == 10
  {
  }

  /** The string readers: the length, then that many bytes. What is missing is out of range, and a read of nothing where
      both the message and the blocks end finds no block. */
  lemma TextReads(e: Order, p: Prefix, bs: seq<Byte>, full: bool)
    ensures
      var (len, n) := ReadPrefix(e, p, bs);
      Decode(e, Text(p), bs, full) ==
      if !len.Got? then (OutOfRange, n)
      else if len.value > |bs| - n then (OutOfRange, n)
      else if full && len.value == 0 && |bs| == n then (NullCursor, n)
      else (Got(Str(bs[n..n + len.value])), n + len.value)
  {
    hide ReadPrefix;
    var (len, n) := ReadPrefix(e, p, bs);
    if len.Got? && len.value <= |bs| - n {
      assert bs[n..][..len.value] == bs[n..n + len.value];
    }
  }

  /** Which prefix is read how. */
  lemma PrefixReads(e: Order, bs: seq<Byte>)
    ensures ReadPrefix(e, F16, bs) == ReadFixed(e, 2, bs) && ReadPrefix(e, F32, bs) == ReadFixed(e, 4, bs)
    ensures ReadPrefix(e, F64, bs) == ReadFixed(e, 8, bs) && ReadPrefix(e, Vint, bs) == ReadVarint(bs, 64)
  {
  }
}
