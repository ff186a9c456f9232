/** The X/Open transaction identifier and the spellings each engine gives it. */
module Xids {

  type Byte = x: int | 0 <= x < 256
  type Bytes = seq<Byte>
  type Int32 = x: int | -0x8000_0000 <= x <= 0x7FFF_FFFF

  const XID_MAX_GTRID_LEN := 64
  const XID_MAX_BQUAL_LEN := 64
  const USIZE_LIMIT := 0x1_0000_0000_0000_0000

  datatype Option<+T> = None | Some(value: T)

  datatype Xid = Xid(formatId: Int32, gtrid: seq<Byte>, bqual: seq<Byte>) {
    predicate Valid() {
      1 <= |gtrid| <= XID_MAX_GTRID_LEN && |bqual| <= XID_MAX_BQUAL_LEN
    }
  }

  /** The validating constructor: the only way the engine makes an identifier. */
  function NewXid(formatId: Int32, gtrid: seq<Byte>, bqual: seq<Byte>): (r: Option<Xid>)
    ensures r.Some? ==> r.value.Valid()
    ensures r.None? <==> !Xid(formatId, gtrid, bqual).Valid()
  {
    if |gtrid| == 0 then None
    else if |gtrid| > XID_MAX_GTRID_LEN then None
    else if |bqual| > XID_MAX_BQUAL_LEN then None
    else Some(Xid(formatId, gtrid, bqual))
  }

  // ---------------------------------------------------------------------
  // Hexadecimal
  // ---------------------------------------------------------------------

  const HEX_LUT := "0123456789abcdef"
  const HEX_LUT_UPPER := "0123456789ABCDEF"

  function Lut(upper: bool): (r: string)
    ensures |r| == 16
  {
    if upper then HEX_LUT_UPPER else HEX_LUT
  }

  function DigitPair(b: Byte, upper: bool): (r: string) {
    [Lut(upper)[b / 16], Lut(upper)[b % 16]]
  }

  function HexOf(bytes: seq<Byte>, upper: bool): (r: string)
    ensures |r| == 2 * |bytes|
  {
    if bytes == [] then ""
    else HexOf(bytes[..|bytes| - 1], upper) + DigitPair(bytes[|bytes| - 1], upper)
  }

  method HexEncode(bytes: seq<Byte>, upper: bool) returns (out: string)
    ensures out == HexOf(bytes, upper)
  {
    out := "";
    for i := 0 to |bytes|
      invariant out == HexOf(bytes[..i], upper)
    {
      assert bytes[..i + 1][..i] == bytes[..i];
      out := out + [Lut(upper)[bytes[i] / 16]];
      out := out + [Lut(upper)[bytes[i] % 16]];
    }
    assert bytes[..|bytes|] == bytes;
  }

  function HexNibble(c: char): (r: Option<int>)
    ensures r.Some? ==> 0 <= r.value < 16
  {
    if '0' <= c <= '9' then Some(c as int - '0' as int)
    else if 'a' <= c <= 'f' then Some(c as int - 'a' as int + 10)
    else if 'A' <= c <= 'F' then Some(c as int - 'A' as int + 10)
    else None
  }

  predicate IsHex(s: string) {
    |s| % 2 == 0 && forall i :: 0 <= i < |s| ==> HexNibble(s[i]).Some?
  }

  function PairValue(hi: char, lo: char): (b: Byte)
    requires HexNibble(hi).Some? && HexNibble(lo).Some?
  {
    HexNibble(hi).value * 16 + HexNibble(lo).value
  }

  function BytesOfHex(s: string): (r: seq<Byte>)
    requires IsHex(s)
    ensures |s| == 2 * |r|
  {
    if s == "" then []
    else BytesOfHex(s[..|s| - 2]) + [PairValue(s[|s| - 2], s[|s| - 1])]
  }

  function Unhex(s: string): (r: Option<seq<Byte>>) {
    if IsHex(s) then Some(BytesOfHex(s)) else None
  }

  method HexDecode(s: string) returns (r: Option<seq<Byte>>)
    ensures r == Unhex(s)
  {
    if |s| % 2 != 0 {
      return None;
    }
    var out: seq<Byte> := [];
    var i := 0;
    while i < |s|
      invariant 0 <= i <= |s| && i % 2 == 0
      invariant IsHex(s[..i]) && out == BytesOfHex(s[..i])
    {
      var hi := HexNibble(s[i]);
      if hi.None? {
        return None;
      }
      var lo := HexNibble(s[i + 1]);
      if lo.None? {
        return None;
      }
      out := out + [hi.value * 16 + lo.value];
      assert s[..i + 2][..i] == s[..i];
      i := i + 2;
    }
    assert s[..|s|] == s;
    return Some(out);
  }

  lemma LutNibble(n: int, upper: bool)
    requires 0 <= n < 16
    ensures HexNibble(Lut(upper)[n]) == Some(n)
  {
  }

  lemma DigitPairDecodes(b: Byte, upper: bool)
    ensures var p := DigitPair(b, upper);
            HexNibble(p[0]).Some? && HexNibble(p[1]).Some? && PairValue(p[0], p[1]) == b
  {
    LutNibble(b / 16, upper);
    LutNibble(b % 16, upper);
  }

  lemma UnhexAppend(s: string, hi: char, lo: char)
    requires IsHex(s) && HexNibble(hi).Some? && HexNibble(lo).Some?
    ensures IsHex(s + [hi, lo]) && BytesOfHex(s + [hi, lo]) == BytesOfHex(s) + [PairValue(hi, lo)]
  {
  }

  /** Encoding then decoding gives the bytes back, in either letter case. */
  lemma {:induction false} HexRoundTrip(bytes: seq<Byte>, upper: bool)
    ensures Unhex(HexOf(bytes, upper)) == Some(bytes)
  {
    if bytes != [] {
      var k := |bytes| - 1;
      HexRoundTrip(bytes[..k], upper);
      var p := DigitPair(bytes[k], upper);
      DigitPairDecodes(bytes[k], upper);
      UnhexAppend(HexOf(bytes[..k], upper), p[0], p[1]);
      assert p == [p[0], p[1]] && bytes == bytes[..k] + [bytes[k]];
    }
  }

  predicate LowerHex(s: string) {
    IsHex(s) && forall i :: 0 <= i < |s| ==> !('A' <= s[i] <= 'F')
  }

  lemma NibbleCanonical(c: char)
    requires HexNibble(c).Some?
    ensures HEX_LUT[HexNibble(c).value] == c <==> !('A' <= c <= 'F')
  {
  }

  lemma LowerHexAppend(s: string, hi: char, lo: char)
    requires IsHex(s) && HexNibble(hi).Some? && HexNibble(lo).Some?
    ensures LowerHex(s + [hi, lo]) <==> LowerHex(s) && !('A' <= hi <= 'F') && !('A' <= lo <= 'F')
  {
    var t := s + [hi, lo];
    UnhexAppend(s, hi, lo);
    assert t[|s|] == hi && t[|s| + 1] == lo;
    assert forall i :: 0 <= i < |s| ==> t[i] == s[i];
  }

  lemma PairCanonical(hi: char, lo: char)
    requires HexNibble(hi).Some? && HexNibble(lo).Some?
    ensures DigitPair(PairValue(hi, lo), false) == [hi, lo]
            <==> !('A' <= hi <= 'F') && !('A' <= lo <= 'F')
  {
    var h, l := HexNibble(hi).value, HexNibble(lo).value;
    assert PairValue(hi, lo) / 16 == h && PairValue(hi, lo) % 16 == l;
    NibbleCanonical(hi);
    NibbleCanonical(lo);
    var p := DigitPair(PairValue(hi, lo), false);
    assert p == [HEX_LUT[h], HEX_LUT[l]];
    assert p == [hi, lo] <==> p[0] == hi && p[1] == lo;
  }

  lemma HexAppend(b: seq<Byte>, v: Byte, upper: bool)
    ensures HexOf(b + [v], upper) == HexOf(b, upper) + DigitPair(v, upper)
  {
  }

  lemma HexCanonicalAppend(s: string, hi: char, lo: char)
    requires IsHex(s) && HexNibble(hi).Some? && HexNibble(lo).Some?
    ensures IsHex(s + [hi, lo])
    ensures HexOf(BytesOfHex(s + [hi, lo]), false) == s + [hi, lo]
            <==> HexOf(BytesOfHex(s), false) == s && !('A' <= hi <= 'F') && !('A' <= lo <= 'F')
  {
    UnhexAppend(s, hi, lo);
    HexAppend(BytesOfHex(s), PairValue(hi, lo), false);
    PairCanonical(hi, lo);
    SameEnds(HexOf(BytesOfHex(s), false), DigitPair(PairValue(hi, lo), false), s, [hi, lo]);
  }

  /** Decoding then encoding gives the text back exactly when it was lower-case. */
  lemma {:induction false} HexCanonical(s: string)
    requires IsHex(s)
    ensures HexOf(BytesOfHex(s), false) == s <==> LowerHex(s)
  {
    if s != "" {
      var init, hi, lo := s[..|s| - 2], s[|s| - 2], s[|s| - 1];
      assert s == init + [hi, lo];
      HexCanonical(init);
      HexCanonicalAppend(init, hi, lo);
      LowerHexAppend(init, hi, lo);
    }
  }

  lemma SameEnds<T>(a: seq<T>, b: seq<T>, c: seq<T>, d: seq<T>)
    requires |a| == |c|
    ensures a + b == c + d <==> a == c && b == d
  {
    if a + b == c + d {
      assert a == (a + b)[..|a|] && b == (a + b)[|a|..];
      assert c == (c + d)[..|c|] && d == (c + d)[|c|..];
    }
  }

  lemma {:induction false} HexDigitsOnly(bytes: seq<Byte>, upper: bool, c: char)
    requires HexNibble(c).None?
    ensures c !in HexOf(bytes, upper)
  {
    if bytes != [] {
      var last := bytes[|bytes| - 1];
      HexDigitsOnly(bytes[..|bytes| - 1], upper, c);
      LutNibble(last / 16, upper);
      LutNibble(last % 16, upper);
    }
  }
}
