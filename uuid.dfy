/** The text form of a version-4 UUID (section 4.4 of RFC 4122) as the
    validator's `uuid4` rule accepts it, and the string `uuid.NewString`
    builds from 16 random bytes. */
module Uuid {

  predicate IsLowerHex(c: char) {
    '0' <= c <= '9' || 'a' <= c <= 'f'
  }

  /** What position `i` of the text form holds: a hyphen between the
      8-4-4-4-12 groups, the version nibble `4` at 14, the variant nibble
      (8, 9, a or b) at 19, and a lower-case hex digit everywhere else. */
  predicate FitsAt(i: int, c: char) {
    if i == 8 || i == 13 || i == 18 || i == 23 then c == '-'
    else if i == 14 then c == '4'
    else if i == 19 then c == '8' || c == '9' || c == 'a' || c == 'b'
    else IsLowerHex(c)
  }

  /** The `uuid4` pattern
      `^[0-9a-f]{8}-[0-9a-f]{4}-4[0-9a-f]{3}-[89ab][0-9a-f]{3}-[0-9a-f]{12}$`. */
  predicate IsUuid4(s: string) {
    |s| == 36 && forall i :: 0 <= i < 36 ==> FitsAt(i, s[i])
  }

  const HexDigits: string := "0123456789abcdef"

  function HexDigit(n: bv8): (c: char)
    requires n < 16
    ensures IsLowerHex(c)
  {
    HexDigits[n as int]
  }

  /** Two lower-case hex digits per byte, high nibble first. */
  function Hex(bs: seq<bv8>): (r: string)
    ensures |r| == 2 * |bs|
    ensures forall i :: 0 <= i < |r| ==> IsLowerHex(r[i])
    ensures forall k :: 0 <= k < |bs| ==> r[2 * k] == HexDigit(bs[k] >> 4)
    ensures forall k :: 0 <= k < |bs| ==> r[2 * k + 1] == HexDigit(bs[k] & 0x0f)
  {
    if bs == [] then []
    else
      var rest := Hex(bs[1..]);
      var r := [HexDigit(bs[0] >> 4), HexDigit(bs[0] & 0x0f)] + rest;
      assert forall k :: 1 <= k < |bs| ==> r[2 * k] == rest[2 * (k - 1)];
      assert forall k :: 1 <= k < |bs| ==> r[2 * k + 1] == rest[2 * (k - 1) + 1];
      r
  }

  /** `uuid.NewString()` given the 16 bytes `uuid.NewRandom` reads: the
      version bits of byte 6 are set to 4 and the variant bits of byte 8 to
      10, then the bytes are written as 8-4-4-4-12 hex groups. */
  function NewString(random: seq<bv8>): string
    requires |random| == 16
  {
    var u := random[6 := (random[6] & 0x0f) | 0x40][8 := (random[8] & 0x3f) | 0x80];
    Hex(u[0..4]) + "-" + Hex(u[4..6]) + "-" + Hex(u[6..8]) + "-" + Hex(u[8..10]) + "-" + Hex(u[10..16])
  }

  /** Every server-generated id meets the `uuid4` rule. */
  lemma NewStringIsUuid4(random: seq<bv8>)
    requires |random| == 16
    ensures IsUuid4(NewString(random))
  {
    var u := random[6 := (random[6] & 0x0f) | 0x40][8 := (random[8] & 0x3f) | 0x80];
    var g1, g2, g3, g4, g5 := Hex(u[0..4]), Hex(u[4..6]), Hex(u[6..8]), Hex(u[8..10]), Hex(u[10..16]);
    var s := g1 + "-" + g2 + "-" + g3 + "-" + g4 + "-" + g5;
    assert s == NewString(random);
    assert u[6] >> 4 == 4;
    assert 8 <= u[8] >> 4 <= 11;
    forall i | 0 <= i < 36
      ensures FitsAt(i, s[i])
    {
      if i < 8 { assert s[i] == g1[i]; }
      else if i == 8 || i == 13 || i == 18 || i == 23 { }
      else if i < 13 { assert s[i] == g2[i - 9]; }
      else if i == 14 { assert s[i] == g3[0] == HexDigit(u[6] >> 4); }
      else if i < 18 { assert s[i] == g3[i - 14]; }
      else if i == 19 { assert s[i] == g4[0] == HexDigit(u[8] >> 4); }
      else if i < 23 { assert s[i] == g4[i - 19]; }
      else { assert s[i] == g5[i - 24]; }
    }
  }
}
