/** The wire format of ByteArray: fixed-width integers in either byte order, LEB128 varints, zigzag, and
    length-prefixed strings, with the readers that undo the writers. */
module Codec {
  import opened Bytes
  import opened Blocks

  function Pow2(n: nat): (r: int)
    ensures r > 0
  {
    if n == 0 then 1 else 2 * Pow2(n - 1)
  }

  lemma Pow2At7(n: nat)
    ensures Pow2(n + 7) == 128 * Pow2(n)
  {
    assert Pow2(n + 7) == 2 * Pow2(n + 6) && Pow2(n + 6) == 2 * Pow2(n + 5) && Pow2(n + 5) == 2 * Pow2(n + 4);
    assert Pow2(n + 4) == 2 * Pow2(n + 3) && Pow2(n + 3) == 2 * Pow2(n + 2) && Pow2(n + 2) == 2 * Pow2(n + 1);
  }

  lemma Pow2At8(n: nat)
    ensures Pow2(n + 8) == 256 * Pow2(n)
  {
    Pow2At7(n);
  }

  lemma {:induction false} Pow2Order(a: nat, b: nat)
    requires a <= b
    ensures Pow2(a) <= Pow2(b)
  {
    if a < b {
      Pow2Order(a, b - 1);
    }
  }

  // ---------------------------------------------------------------- byte order

  datatype Order = Little | Big

  /** `v` in `n` bytes, least significant first. */
  function LittleBytes(v: nat, n: nat): (bs: seq<Byte>)
    ensures |bs| == n
  {
    if n == 0 then [] else [v % 256] + LittleBytes(v / 256, n - 1)
  }

  /** `v` in `n` bytes, most significant first. */
  function BigBytes(v: nat, n: nat): (bs: seq<Byte>)
    ensures |bs| == n
  {
    if n == 0 then [] else BigBytes(v / 256, n - 1) + [v % 256]
  }

  /** The memory image of an n-byte unsigned integer on a machine of byte order `o`. */
  function Image(o: Order, v: nat, n: nat): (bs: seq<Byte>)
    ensures |bs| == n
  {
    if o.Little? then LittleBytes(v, n) else BigBytes(v, n)
  }

  function FromLittle(bs: seq<Byte>): nat {
    if bs == [] then 0 else bs[0] + 256 * FromLittle(bs[1..])
  }

  function FromBig(bs: seq<Byte>): nat {
    if bs == [] then 0 else 256 * FromBig(bs[..|bs| - 1]) + bs[|bs| - 1]
  }

  function FromImage(o: Order, bs: seq<Byte>): nat {
    if o.Little? then FromLittle(bs) else FromBig(bs)
  }

  function Backwards(bs: seq<Byte>): (r: seq<Byte>)
    ensures |r| == |bs|
    ensures forall i :: 0 <= i < |bs| ==> r[i] == bs[|bs| - 1 - i]
  {
    if bs == [] then [] else Backwards(bs[1..]) + [bs[0]]
  }

  /** bswap_16/32/64: the integer with the bytes the other way round. */
  function Byteswap(v: nat, n: nat): nat {
    FromLittle(Backwards(LittleBytes(v, n)))
  }

  lemma {:induction false} BigIsBackwards(v: nat, n: nat)
    ensures BigBytes(v, n) == Backwards(LittleBytes(v, n))
  {
    if n > 0 {
      BigIsBackwards(v / 256, n - 1);
      assert LittleBytes(v, n)[1..] == LittleBytes(v / 256, n - 1);
    }
  }

  lemma {:induction false} FromBigIsBackwards(bs: seq<Byte>)
    ensures FromBig(bs) == FromLittle(Backwards(bs))
  {
    if bs != [] {
      var n := |bs| - 1;
      FromBigIsBackwards(bs[..n]);
      assert Backwards(bs)[0] == bs[n];
      assert Backwards(bs)[1..] == Backwards(bs[..n]);
    }
  }

  lemma {:induction false} LittleRoundTrip(v: nat, n: nat)
    requires v < Pow2(8 * n)
    ensures FromLittle(LittleBytes(v, n)) == v
  {
    if n > 0 {
      Pow2At8(8 * (n - 1));
      LittleRoundTrip(v / 256, n - 1);
      assert LittleBytes(v, n)[1..] == LittleBytes(v / 256, n - 1);
    }
  }

  lemma {:induction false} LittleBytesOf(bs: seq<Byte>)
    ensures LittleBytes(FromLittle(bs), |bs|) == bs && FromLittle(bs) < Pow2(8 * |bs|)
  {
    if bs != [] {
      LittleBytesOf(bs[1..]);
      Pow2At8(8 * (|bs| - 1));
      assert FromLittle(bs) / 256 == FromLittle(bs[1..]);
      assert bs == [bs[0]] + bs[1..];
    }
  }

  lemma BackwardsTwice(bs: seq<Byte>)
    ensures Backwards(Backwards(bs)) == bs
  {
  }

  lemma ImageRoundTrip(o: Order, v: nat, n: nat)
    requires v < Pow2(8 * n)
    ensures FromImage(o, Image(o, v, n)) == v
  {
    LittleRoundTrip(v, n);
    BigIsBackwards(v, n);
    FromBigIsBackwards(BigBytes(v, n));
    BackwardsTwice(LittleBytes(v, n));
  }

  /** What WriteFuintN hands to write(): the memory image of the value, swapped first if the array's byte
      order is not the machine's. A single byte is never swapped. */
  function Written(host: Order, e: Order, v: nat, n: nat): seq<Byte> {
    Image(host, if n > 1 && e != host then Byteswap(v, n) else v, n)
  }

  /** What ReadFuintN makes of `bs`. */
  function Loaded(host: Order, e: Order, bs: seq<Byte>): nat {
    if |bs| == 1 || e == host then FromImage(host, bs) else Byteswap(FromImage(host, bs), |bs|)
  }

  /** The machine does not matter: only the array's byte order decides what is written. */
  lemma WrittenOnAnyHost(host: Order, e: Order, v: nat, n: nat)
    ensures Written(host, e, v, n) == Image(e, v, n)
  {
    BigIsBackwards(v, n);
    if n == 1 {
      OneByte(v);
    } else if e != host {
      var back := Backwards(LittleBytes(v, n));
      LittleBytesOf(back);
      BigIsBackwards(Byteswap(v, n), n);
      BackwardsTwice(LittleBytes(v, n));
    }
  }

  lemma OneByte(v: nat)
    ensures LittleBytes(v, 1) == BigBytes(v, 1) == [v % 256]
  {
  }

  lemma LoadedOnAnyHost(host: Order, e: Order, bs: seq<Byte>)
    ensures Loaded(host, e, bs) == FromImage(e, bs)
  {
    FromBigIsBackwards(bs);
    LittleBytesOf(bs);
    LittleBytesOf(Backwards(bs));
    BackwardsTwice(bs);
  }

  // ---------------------------------------------------------------- two's complement and zigzag

  /** An integer cast to an unsigned type of `bits` bits. */
  function Unsigned(v: int, bits: nat): (r: nat)
    ensures r < Pow2(bits)
    ensures 0 <= v < Pow2(bits) ==> r == v
    ensures v >= 0 ==> r <= v
  {
    Residues(v, Pow2(bits));
    v % Pow2(bits)
  }

  /** An integer cast to a signed type of `bits` bits. */
  function Signed(v: int, bits: nat): int {
    var u := Unsigned(v, bits);
    if 2 * u < Pow2(bits) then u else u - Pow2(bits)
  }

  ghost predicate IsSigned(v: int, bits: nat) {
    -Pow2(bits) <= 2 * v < Pow2(bits)
  }

  /** EncodeZigzag32/64: -v and v * 2 wrap as the signed type does. */
  function EncodeZigzag(v: int, bits: nat): (u: nat)
    ensures u < Pow2(bits)
  {
    if v < 0 then Unsigned(Unsigned(Signed(-v, bits), bits) * 2 - 1, bits)
    else Unsigned(Signed(v * 2, bits), bits)
  }

  /** DecodeZigzag32/64: xor with -(v & 1) keeps v >> 1 or complements it. */
  function DecodeZigzag(u: nat, bits: nat): int {
    Signed(if u % 2 == 0 then u / 2 else Pow2(bits) - 1 - u / 2, bits)
  }

  lemma Residue(v: int, m: nat, k: int)
    requires m > 0 && 0 <= v + k * m < m
    ensures v % m == v + k * m
  {
    var q, r := v / m, v % m;
    assert v == q * m + r;
    assert (q + k) * m == q * m + k * m;
    if q + k != 0 {
      MultipleIsFar(q + k, m);
    }
  }

  lemma Residues(v: int, m: nat)
    requires m > 0
    ensures 0 <= v < m ==> v % m == v
    ensures v >= 0 ==> v % m <= v
  {
    if 0 <= v < m {
      Residue(v, m, 0);
    }
  }

  lemma CastsCancel(v: int, bits: nat)
    ensures IsSigned(v, bits) ==> Signed(v, bits) == v
    ensures Unsigned(Signed(v, bits), bits) == Unsigned(v, bits)
  {
    var m := Pow2(bits);
    var u := v % m;
    if -m <= v < 0 {
      Residue(v, m, 1);
    } else if 0 <= v < m {
      Residue(v, m, 0);
    }
    Residue(u, m, 0);
    Residue(u - m, m, 1);
  }

  lemma SignedOfUnsigned(v: int, bits: nat)
    requires IsSigned(v, bits)
    ensures Signed(Unsigned(v, bits), bits) == v
  {
    var m := Pow2(bits);
    Residue(v, m, if v < 0 then 1 else 0);
  }

  /** The zigzag number of `v`, as a plain formula. */
  lemma ZigzagIs(v: int, bits: nat)
    requires bits > 0 && IsSigned(v, bits)
    ensures EncodeZigzag(v, bits) == if v < 0 then -2 * v - 1 else 2 * v
  {
    var m := Pow2(bits);
    if v < 0 {
      CastsCancel(-v, bits);
      Residue(-v, m, 0);
      Residue(-v * 2 - 1, m, 0);
    } else {
      CastsCancel(v * 2, bits);
      Residue(v * 2, m, 0);
    }
  }

  lemma UnzigzagIs(u: nat, bits: nat)
    requires bits > 0 && u < Pow2(bits)
    ensures DecodeZigzag(u, bits) == if u % 2 == 0 then u / 2 else -(u / 2) - 1
  {
    var m := Pow2(bits);
    assert m == 2 * Pow2(bits - 1);
    if u % 2 == 0 {
      Residue(u / 2, m, 0);
    } else {
      Residue(m - 1 - u / 2, m, 0);
    }
  }

  /** Zigzag is a bijection between the signed and the unsigned values of a width: each undoes the other. */
  lemma UnzigzagZigzag(v: int, bits: nat)
    requires bits > 0 && IsSigned(v, bits)
    ensures DecodeZigzag(EncodeZigzag(v, bits), bits) == v
  {
    ZigzagIs(v, bits);
    UnzigzagIs(EncodeZigzag(v, bits), bits);
  }

  lemma ZigzagUnzigzag(u: nat, bits: nat)
    requires bits > 0 && u < Pow2(bits)
    ensures IsSigned(DecodeZigzag(u, bits), bits) && EncodeZigzag(DecodeZigzag(u, bits), bits) == u
  {
    UnzigzagIs(u, bits);
    var v := DecodeZigzag(u, bits);
    SignedIs(v, u, bits);
    ZigzagIs(v, bits);
  }

  lemma SignedIs(v: int, u: nat, bits: nat)
    requires bits > 0 && u < Pow2(bits) && v == if u % 2 == 0 then u / 2 else -(u / 2) - 1
    ensures IsSigned(v, bits)
  {
    assert Pow2(bits) == 2 * Pow2(bits - 1);
  }

  // ---------------------------------------------------------------- varints

  /** LEB128: seven bits a byte, least significant first, the top bit set on all but the last. */
  function Varint(v: nat): (bs: seq<Byte>)
    ensures bs != []
  {
    if v < 128 then [v] else [v % 128 + 128] + Varint(v / 128)
  }

  /** A value needs at most k bytes exactly when it has at most 7k bits. */
  lemma {:induction false} VarintLength(v: nat, k: nat)
    requires k > 0
    ensures |Varint(v)| <= k <==> v < Pow2(7 * k)
  {
    Pow2At7(7 * (k - 1));
    if k == 1 {
      assert Pow2(7 * (k - 1)) == Pow2(0) == 1;
    } else {
      Pow2Order(0, 7 * (k - 1));
      if v >= 128 {
        VarintLength(v / 128, k - 1);
      }
    }
  }

  /** A signed value takes at most k bytes exactly when it lies in [-2^(7k-1), 2^(7k-1)). */
  lemma ZigzagLength(v: int, bits: nat, k: nat)
    requires bits > 0 && IsSigned(v, bits) && k > 0
    ensures |Varint(EncodeZigzag(v, bits))| <= k <==> -Pow2(7 * k - 1) <= v < Pow2(7 * k - 1)
  {
    ZigzagIs(v, bits);
    VarintLength(EncodeZigzag(v, bits), k);
    assert Pow2(7 * k) == 2 * Pow2(7 * k - 1);
  }

  /** tmp[5] and tmp[10] are large enough. */
  lemma VarintTotals(v: nat)
    ensures v < Pow2(32) ==> |Varint(v)| <= 5
    ensures v < Pow2(64) ==> |Varint(v)| <= 10
  {
    VarintLength(v, 5);
    VarintLength(v, 10);
    Pow2Order(32, 35);
    Pow2Order(64, 70);
  }

  /** The readers, as functions of the unread bytes: what comes out, and how many bytes are consumed. The varint
      loop takes seven bits at a time until a byte below 128 or until `bits` are filled; what is shifted out
      at the top is lost. */
  function ReadVarint(bs: seq<Byte>, bits: int): (r: (Outcome<nat>, nat))
    ensures r.1 <= |bs|
    ensures r.0.Got? && bits >= 0 ==> r.0.value < Pow2(bits)
    ensures r.0.OutOfRange? ==> r.1 == |bs|
    ensures !r.0.NullCursor?
    decreases |bs|
  {
    if bits <= 0 then (Got(0), 0)
    else if bs == [] then (OutOfRange, 0)
    else
      var low := Unsigned(bs[0] % 128, bits);
      if bs[0] < 128 then (Got(low), 1)
      else
        var (high, n) := ReadVarint(bs[1..], bits - 7);
        ReadVarintRange(bits, low, high);
        (if high.Got? then Got(low + 128 * high.value) else OutOfRange, n + 1)
  }

  lemma ReadVarintRange(bits: nat, low: nat, high: Outcome<nat>)
    requires bits > 0 && low < 128 && low < Pow2(bits)
    requires high.Got? ==> if bits >= 7 then high.value < Pow2(bits - 7) else high.value == 0
    ensures high.Got? ==> low + 128 * high.value < Pow2(bits)
  {
    if bits >= 7 {
      Pow2At7(bits - 7);
    }
  }

  /** Reading back a varint that fits the width, whatever follows it. */
  lemma {:induction false} VarintRoundTrip(v: nat, bits: nat, rest: seq<Byte>)
    requires v < Pow2(bits) && bits > 0
    ensures ReadVarint(Varint(v) + rest, bits) == (Got(v), |Varint(v)|)
    decreases v
  {
    var bs := Varint(v) + rest;
    if v >= 128 {
      assert Pow2(7) == 128 by {
        Pow2At7(0);
      }
      if bits <= 7 {
        Pow2Order(bits, 7);
      }
      Pow2Order(7, bits);
      Pow2At7(bits - 7);
      VarintRoundTrip(v / 128, bits - 7, rest);
      assert bs[1..] == Varint(v / 128) + rest;
      assert bs[0] % 128 == v % 128;
    }
  }
}
