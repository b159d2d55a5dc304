/**
 * System.Guid as 16 bytes, held in the order its text form prints them
 * (the field order of the UUID string representation, section 3 of RFC 4122),
 * and Guid.ToString(): lowercase hexadecimal in groups of 8-4-4-4-12 digits.
 */
module Guids {
  import opened Wrappers

  type Byte = x: int | 0 <= x < 256

  type Guid = s: seq<Byte> | |s| == 16 witness [0, 0, 0, 0, 0, 0, 0, 0, 0, 0, 0, 0, 0, 0, 0, 0]

  /** Guid.Empty, the all-zero GUID. */
  const Empty: Guid := [0, 0, 0, 0, 0, 0, 0, 0, 0, 0, 0, 0, 0, 0, 0, 0]

  predicate IsLowerHex(c: char) {
    '0' <= c <= '9' || 'a' <= c <= 'f'
  }

  function HexDigit(d: int): (c: char)
    requires 0 <= d < 16
    ensures IsLowerHex(c)
  {
    if d < 10 then ('0' as int + d) as char else ('a' as int + d - 10) as char
  }

  /** The value of one hexadecimal digit of either case, as Guid.Parse reads it. */
  function HexValue(c: char): (v: Option<int>)
    ensures v.Some? ==> 0 <= v.value < 16
  {
    if '0' <= c <= '9' then Some(c as int - '0' as int)
    else if 'a' <= c <= 'f' then Some(c as int - 'a' as int + 10)
    else if 'A' <= c <= 'F' then Some(c as int - 'A' as int + 10)
    else None
  }

  /** Two lowercase digits per byte, high nibble first. */
  function Hex(bs: seq<Byte>): (s: string)
    ensures |s| == 2 * |bs|
    ensures forall i :: 0 <= i < |s| ==> IsLowerHex(s[i])
  {
    if bs == [] then [] else [HexDigit(bs[0] / 16), HexDigit(bs[0] % 16)] + Hex(bs[1..])
  }

  /** Reads an even number of hexadecimal digits back into bytes. */
  function ParseHex(s: string): (r: Option<seq<Byte>>)
    ensures r.Some? ==> 2 * |r.value| == |s|
    decreases |s|
  {
    if |s| == 0 then Some([])
    else if |s| == 1 then None
    else match (HexValue(s[0]), HexValue(s[1]), ParseHex(s[2..]))
      case (Some(hi), Some(lo), Some(rest)) => Some([hi * 16 + lo] + rest)
      case _ => None
  }

  /** The positions of the four dashes in the 36-character text form. */
  predicate IsDashPosition(i: int) {
    i == 8 || i == 13 || i == 18 || i == 23
  }

  /** Guid.ToString(): "xxxxxxxx-xxxx-xxxx-xxxx-xxxxxxxxxxxx", lowercase. */
  function GuidText(g: Guid): (s: string)
    ensures |s| == 36
    ensures forall i :: 0 <= i < 36 ==> (s[i] == '-' <==> IsDashPosition(i))
    ensures forall i :: 0 <= i < 36 && !IsDashPosition(i) ==> IsLowerHex(s[i])
  {
    Hex(g[..4]) + "-" + Hex(g[4..6]) + "-" + Hex(g[6..8]) + "-" + Hex(g[8..10]) + "-" + Hex(g[10..])
  }

  /** Reads the 8-4-4-4-12 text form (digits of either case). */
  function ParseGuidText(s: string): (r: Option<Guid>)
    ensures r.Some? ==> |s| == 36
  {
    if |s| != 36 || s[8] != '-' || s[13] != '-' || s[18] != '-' || s[23] != '-' then None
    else match (ParseHex(s[..8]), ParseHex(s[9..13]), ParseHex(s[14..18]), ParseHex(s[19..23]), ParseHex(s[24..]))
      case (Some(a), Some(b), Some(c), Some(d), Some(e)) => Some(a + b + c + d + e)
      case _ => None
  }

  lemma {:induction false} ParseHexOfHex(bs: seq<Byte>)
    ensures ParseHex(Hex(bs)) == Some(bs)
  {
    if bs != [] {
      var b := bs[0];
      var s := Hex(bs);
      assert s == [HexDigit(b / 16), HexDigit(b % 16)] + Hex(bs[1..]);
      assert s[2..] == Hex(bs[1..]);
      ParseHexOfHex(bs[1..]);
      assert HexValue(s[0]) == Some(b / 16);
      assert HexValue(s[1]) == Some(b % 16);
      assert [b] + bs[1..] == bs;
    }
  }

  /** The text form of a GUID reads back as that GUID. */
  lemma GuidTextRoundTrip(g: Guid)
    ensures ParseGuidText(GuidText(g)) == Some(g)
  {
    var s := GuidText(g);
    assert s[..8] == Hex(g[..4]);
    assert s[9..13] == Hex(g[4..6]);
    assert s[14..18] == Hex(g[6..8]);
    assert s[19..23] == Hex(g[8..10]);
    assert s[24..] == Hex(g[10..]);
    ParseHexOfHex(g[..4]);
    ParseHexOfHex(g[4..6]);
    ParseHexOfHex(g[6..8]);
    ParseHexOfHex(g[8..10]);
    ParseHexOfHex(g[10..]);
    assert g[..4] + g[4..6] + g[6..8] + g[8..10] + g[10..] == g;
  }

  /** Distinct GUIDs have distinct text forms. */
  lemma GuidTextInjective(g1: Guid, g2: Guid)
    ensures GuidText(g1) == GuidText(g2) ==> g1 == g2
  {
    GuidTextRoundTrip(g1);
    GuidTextRoundTrip(g2);
  }
}
