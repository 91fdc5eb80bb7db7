/** Percent-encoding of byte strings: section 2.1 of RFC 3986, with '=' also left unescaped. */
module Url {
  import opened Sums
  import opened Bytes

  const SPACE: Byte := 32
  const PLUS: Byte := 43
  const PERCENT: Byte := 37

  /** uri_chars: - . 0-9 = A-Z _ a-z ~ */
  predicate Unreserved(c: Byte) {
    c == 45 || c == 46 || 48 <= c <= 57 || c == 61 || 65 <= c <= 90 || c == 95 || 97 <= c <= 122 || c == 126
  }

  /** "0123456789ABCDEF"[n] */
  function HexDigit(n: int): Byte
    requires 0 <= n < 16
  {
    if n < 10 then 48 + n else 55 + n
  }

  predicate IsXDigit(c: Byte) { 48 <= c <= 57 || 65 <= c <= 70 || 97 <= c <= 102 }

  /** xdigit_chars: 0 for every byte that is not a hexadecimal digit. */
  function XDigit(c: Byte): (n: int)
    ensures 0 <= n < 16
  {
    if 48 <= c <= 57 then c - 48
    else if 65 <= c <= 70 then c - 55
    else if 97 <= c <= 102 then c - 87
    else 0
  }

  // ------------------------------------------------------------------ per-character definitions

  function EncodeByte(c: Byte, plus: bool): seq<Byte> {
    if Unreserved(c) then [c]
    else if c == SPACE && plus then [PLUS]
    else [PERCENT, HexDigit(c / 16), HexDigit(c % 16)]
  }

  function Encode(s: seq<Byte>, plus: bool): seq<Byte> {
    if s == [] then [] else EncodeByte(s[0], plus) + Encode(s[1..], plus)
  }

  /** An escape starts at the head of `s`. */
  predicate Escape(s: seq<Byte>) {
    |s| >= 3 && s[0] == PERCENT && IsXDigit(s[1]) && IsXDigit(s[2])
  }

  /** A percent sign without two hexadecimal digits after it stands for itself. */
  function Decode(s: seq<Byte>, plus: bool): seq<Byte> {
    if s == [] then []
    else if s[0] == PLUS && plus then [SPACE] + Decode(s[1..], plus)
    else if Escape(s) then [XDigit(s[1]) * 16 + XDigit(s[2])] + Decode(s[3..], plus)
    else [s[0]] + Decode(s[1..], plus)
  }

  // ------------------------------------------------------------------ the lazily allocated loops

  /** What the loop stands for before and after its buffer exists. */
  function Sofar(ss: Option<seq<Byte>>, str: seq<Byte>, c: nat): seq<Byte>
    requires c <= |str|
  {
    if ss.None? then str[..c] else ss.value
  }

  /** The body of the encoding loop for one character. */
  method EncodeStep(ss: Option<seq<Byte>>, str: seq<Byte>, c: nat, plus: bool) returns (ss': Option<seq<Byte>>)
    requires c < |str|
    ensures Sofar(ss', str, c + 1) == Sofar(ss, str, c) + EncodeByte(str[c], plus)
  {
    ss' := ss;
    var x := str[c];
    if !Unreserved(x) {
      if ss'.None? {
        ss' := Some(str[..c]);
      }
      if x == SPACE && plus {
        ss' := Some(ss'.value + [PLUS]);
      } else {
        ss' := Some(ss'.value + [PERCENT]);
        ss' := Some(ss'.value + [HexDigit(x / 16)]);
        ss' := Some(ss'.value + [HexDigit(x % 16)]);
      }
    } else if ss'.Some? {
      ss' := Some(ss'.value + [x]);
    }
  }

  lemma EncodeFrom(str: seq<Byte>, c: nat, plus: bool, done: seq<Byte>)
    requires c < |str|
    ensures done + Encode(str[c..], plus) == (done + EncodeByte(str[c], plus)) + Encode(str[c + 1..], plus)
  {
    assert str[c..][1..] == str[c + 1..];
  }

  method UrlEncode(str: seq<Byte>, plus: bool) returns (r: seq<Byte>)
    ensures r == Encode(str, plus)
  {
    var ss: Option<seq<Byte>> := None;
    var c := 0;
    while c < |str|
      invariant 0 <= c <= |str|
      invariant Sofar(ss, str, c) + Encode(str[c..], plus) == Encode(str, plus)
    {
      EncodeFrom(str, c, plus, Sofar(ss, str, c));
      ss := EncodeStep(ss, str, c, plus);
      c := c + 1;
    }
    r := if ss.None? then str else ss.value;
    assert Sofar(ss, str, c) == r && r + [] == r;
  }

  /** How many characters the decoder consumes at `s`, and the byte it produces. */
  function Consumed(s: seq<Byte>, plus: bool): (n: nat)
    requires s != []
    ensures 1 <= n <= |s|
  {
    if !(s[0] == PLUS && plus) && Escape(s) then 3 else 1
  }

  function Produced(s: seq<Byte>, plus: bool): Byte
    requires s != []
  {
    if s[0] == PLUS && plus then SPACE
    else if Escape(s) then XDigit(s[1]) * 16 + XDigit(s[2])
    else s[0]
  }

  /** The body of the decoding loop. */
  method DecodeStep(ss: Option<seq<Byte>>, str: seq<Byte>, c: nat, plus: bool)
    returns (ss': Option<seq<Byte>>, c': nat)
    requires c < |str|
    ensures c' == c + Consumed(str[c..], plus)
    ensures Sofar(ss', str, c') == Sofar(ss, str, c) + [Produced(str[c..], plus)]
  {
    ss', c' := ss, c;
    var x := str[c];
    if x == PLUS && plus {
      if ss'.None? {
        ss' := Some(str[..c]);
      }
      ss' := Some(ss'.value + [SPACE]);
    } else if x == PERCENT && c + 2 < |str| && IsXDigit(str[c + 1]) && IsXDigit(str[c + 2]) {
      assert Escape(str[c..]);
      if ss'.None? {
        ss' := Some(str[..c]);
      }
      ss' := Some(ss'.value + [XDigit(str[c + 1]) * 16 + XDigit(str[c + 2])]);
      c' := c' + 2;
    } else if ss'.Some? {
      ss' := Some(ss'.value + [x]);
    }
    c' := c' + 1;
  }

  lemma DecodeFrom(str: seq<Byte>, c: nat, plus: bool, done: seq<Byte>)
    requires c < |str|
    ensures
      var n := Consumed(str[c..], plus);
      done + Decode(str[c..], plus) == (done + [Produced(str[c..], plus)]) + Decode(str[c + n..], plus)
  {
    assert str[c..][Consumed(str[c..], plus)..] == str[c + Consumed(str[c..], plus)..];
  }

  method UrlDecode(str: seq<Byte>, plus: bool) returns (r: seq<Byte>)
    ensures r == Decode(str, plus)
  {
    var ss: Option<seq<Byte>> := None;
    var c := 0;
    while c < |str|
      invariant 0 <= c <= |str|
      invariant Sofar(ss, str, c) + Decode(str[c..], plus) == Decode(str, plus)
    {
      DecodeFrom(str, c, plus, Sofar(ss, str, c));
      ss, c := DecodeStep(ss, str, c, plus);
    }
    r := if ss.None? then str else ss.value;
    assert Sofar(ss, str, c) == r && r + [] == r;
  }

  // ------------------------------------------------------------------ round trips

  /** The string with every space replaced by a plus sign. */
  function Pluses(s: seq<Byte>): seq<Byte> {
    seq(|s|, i requires 0 <= i < |s| => if s[i] == SPACE then PLUS else s[i])
  }

  lemma DecodeByte(c: Byte, plus: bool, plus': bool, rest: seq<Byte>)
    ensures Decode(EncodeByte(c, plus) + rest, plus')
      == [if c == SPACE && plus && !plus' then PLUS else c] + Decode(rest, plus')
  {
    var e := EncodeByte(c, plus) + rest;
    assert e[|EncodeByte(c, plus)|..] == rest;
    if |EncodeByte(c, plus)| == 3 {
      assert Escape(e);
    }
  }

  /** Decoding the encoding, for every combination of the two settings. */
  lemma {:induction false} DecodeEncode(s: seq<Byte>, plus: bool, plus': bool)
    ensures Decode(Encode(s, plus), plus') == if plus && !plus' then Pluses(s) else s
  {
    if s == [] {
      assert Pluses(s) == s;
    } else {
      hide EncodeByte, Decode, Pluses;
      DecodeByte(s[0], plus, plus', Encode(s[1..], plus));
      DecodeEncode(s[1..], plus, plus');
      PlusesCons(s);
      assert s == [s[0]] + s[1..];
    }
  }

  lemma PlusesCons(s: seq<Byte>)
    requires s != []
    ensures Pluses(s) == [if s[0] == SPACE then PLUS else s[0]] + Pluses(s[1..])
  {
  }

  /** Round trip: always with one setting, and with two settings exactly unless spaces were written as plus
      signs and read back literally. */
  lemma RoundTrip(s: seq<Byte>, plus: bool, plus': bool)
    ensures Decode(Encode(s, plus), plus) == s
    ensures Decode(Encode(s, plus), plus') == s <==> !(plus && !plus' && SPACE in s)
  {
    DecodeEncode(s, plus, plus);
    DecodeEncode(s, plus, plus');
    if SPACE in s {
      var i :| 0 <= i < |s| && s[i] == SPACE;
      assert Pluses(s)[i] != s[i];
    } else {
      assert Pluses(s) == s;
    }
  }

  /** A character that is written as one character. */
  predicate Short(c: Byte, plus: bool) { Unreserved(c) || (c == SPACE && plus) }

  /** Only unreserved characters, escapes and (as a space) plus signs are written; the string grows if and only if some
      character needs an escape. */
  lemma {:induction false} EncodedAlphabet(s: seq<Byte>, plus: bool)
    ensures forall c :: c in Encode(s, plus) ==> Unreserved(c) || c == PERCENT || (c == PLUS && plus)
    ensures |s| <= |Encode(s, plus)| <= 3 * |s|
    ensures |Encode(s, plus)| == |s| <==> forall c :: c in s ==> Short(c, plus)
  {
    if s != [] {
      EncodedAlphabet(s[1..], plus);
      assert s == [s[0]] + s[1..];
      assert |EncodeByte(s[0], plus)| == 1 <==> Short(s[0], plus);
    }
  }

  /** Two strings with the same encoding are the same string. */
  lemma EncodeInjective(s: seq<Byte>, t: seq<Byte>, plus: bool)
    requires Encode(s, plus) == Encode(t, plus)
    ensures s == t
  {
    DecodeEncode(s, plus, plus);
    DecodeEncode(t, plus, plus);
  }

  // ------------------------------------------------------------------ the tables, written out

  const UPPER := "0123456789ABCDEF"
  const LOWER := "0123456789abcdef"

  /** The encoder writes upper-case digits; the decoder takes both cases. */
  lemma HexDigits(n: nat)
    requires n < 16
    ensures HexDigit(n) == UPPER[n] as int
    ensures XDigit(UPPER[n] as int) == XDigit(LOWER[n] as int) == n
    ensures IsXDigit(UPPER[n] as int) && IsXDigit(LOWER[n] as int)
  {
    if n < 10 {
      assert UPPER[n] as int == LOWER[n] as int == 48 + n;
    } else {
      assert UPPER[n] as int == 55 + n && LOWER[n] as int == 87 + n;
    }
  }

  /** The letters, the digits, and - . _ ~ = are written as they are. */
  lemma UnreservedExactly(c: Byte)
    ensures Unreserved(c) <==>
      || 'A' <= c as char <= 'Z' || 'a' <= c as char <= 'z' || '0' <= c as char <= '9'
      || c as char in {'-', '.', '_', '~', '='}
  {
  }

  /** Every other character is written as a percent sign and its two digits, except a space as a plus sign. */
  lemma EscapeExactly(c: Byte, plus: bool)
    ensures Unreserved(c) ==> Encode([c], plus) == [c]
    ensures !Unreserved(c) ==>
      Encode([c], plus) ==
      if c == ' ' as int && plus then ['+' as int] else ['%' as int, UPPER[c / 16] as int, UPPER[c % 16] as int]
  {
    assert [c][1..] == [];
    HexDigits(c / 16);
    HexDigits(c % 16);
    assert EncodeByte(c, plus) + [] == EncodeByte(c, plus);
  }

  /** An escape with digits of either case stands for its byte. */
  lemma AnyCase(hi: nat, lo: nat, upperHi: bool, upperLo: bool, rest: seq<Byte>, plus: bool)
    requires hi < 16 && lo < 16
    ensures
      var h := (if upperHi then UPPER else LOWER)[hi] as int;
      var l := (if upperLo then UPPER else LOWER)[lo] as int;
      Decode(['%' as int, h, l] + rest, plus) == [16 * hi + lo] + Decode(rest, plus)
  {
    hide XDigit, IsXDigit, Decode;
    HexDigits(hi);
    HexDigits(lo);
    DecodeEscape((if upperHi then UPPER else LOWER)[hi] as int, (if upperLo then UPPER else LOWER)[lo] as int,
        rest, plus);
  }

  lemma DecodeEscape(h: Byte, l: Byte, rest: seq<Byte>, plus: bool)
    requires IsXDigit(h) && IsXDigit(l)
    ensures Decode(['%' as int, h, l] + rest, plus) == [XDigit(h) * 16 + XDigit(l)] + Decode(rest, plus)
  {
    hide XDigit, IsXDigit;
    var s := ['%' as int, h, l] + rest;
    assert Escape(s) && s[3..] == rest;
  }

  /** Only hexadecimal digits make an escape: a percent sign followed by anything else stands for itself. */
  lemma DigitsExactly(c: Byte)
    ensures IsXDigit(c) <==>
      '0' <= c as char <= '9' || 'A' <= c as char <= 'F' || 'a' <= c as char <= 'f'
  {
  }

  /** Everything that is not an escape, nor a plus sign read as a space, stands for itself; so does a percent sign
      without two digits after it. */
  lemma OtherwiseItself(c: Byte, rest: seq<Byte>, plus: bool)
    ensures
      Decode([c] + rest, plus) ==
      if c == '+' as int && plus then [' ' as int] + Decode(rest, plus)
      else if c == '%' as int && |rest| >= 2 && IsXDigit(rest[0]) && IsXDigit(rest[1])
      then [16 * XDigit(rest[0]) + XDigit(rest[1])] + Decode(rest[2..], plus)
      else [c] + Decode(rest, plus)
  {
    hide XDigit, IsXDigit;
    var s := [c] + rest;
    assert s[1..] == rest;
    if |rest| >= 2 {
      assert s[3..] == rest[2..] && s[1] == rest[0] && s[2] == rest[1];
    }
  }
}
