/** The bytes of a text, as section 3 of RFC 3629 lays them out; lengths are counted in them. */
module Utf8 {
  import opened Text

  /** Seven bits in one byte, or a lead byte that tells how many bytes of six bits each are to follow. */
  function Encode(c: char): seq<int> {
    var n := c as int;
    if n < 0x80 then [n]
    else if n < 0x800 then [0xC0 + n / 64, 0x80 + n % 64]
    else if n < 0x10000 then [0xE0 + n / 64 / 64, 0x80 + n / 64 % 64, 0x80 + n % 64]
    else [0xF0 + n / 64 / 64 / 64, 0x80 + n / 64 / 64 % 64, 0x80 + n / 64 % 64, 0x80 + n % 64]
  }

  /** How many bytes the first character has, by its lead byte. */
  function Width(lead: int): nat {
    if lead < 0xC0 then 1 else if lead < 0xE0 then 2 else if lead < 0xF0 then 3 else 4
  }

  /** The number of the character that the bytes begin with. */
  function Decode(bytes: seq<int>): int
    requires bytes != [] && |bytes| >= Width(bytes[0])
  {
    match Width(bytes[0])
    case 1 => bytes[0]
    case 2 => (bytes[0] - 0xC0) * 64 + (bytes[1] - 0x80)
    case 3 => ((bytes[0] - 0xE0) * 64 + (bytes[1] - 0x80)) * 64 + (bytes[2] - 0x80)
    case _ => (((bytes[0] - 0xF0) * 64 + (bytes[1] - 0x80)) * 64 + (bytes[2] - 0x80)) * 64 + (bytes[3] - 0x80)
  }

  function Bytes(s: string): seq<int> {
    if s == "" then [] else Encode(s[0]) + Bytes(s[1..])
  }

  lemma EncodeIsBytes(c: char)
    ensures forall i :: 0 <= i < |Encode(c)| ==> 0 <= Encode(c)[i] < 256
    ensures |Encode(c)| == Width(Encode(c)[0])
  {
  }

  lemma DecodeUndoesEncode(c: char)
    ensures |Encode(c)| == Width(Encode(c)[0]) && Decode(Encode(c)) == c as int
  {
    EncodeIsBytes(c);
  }

  /** The bytes of a character tell it from every other, whatever follows them. */
  lemma DecodeFirst(c: char, rest: seq<int>)
    ensures var bytes := Encode(c) + rest; |bytes| >= Width(bytes[0]) == |Encode(c)| && Decode(bytes) == c as int
  {
    var bytes := Encode(c) + rest;
    DecodeUndoesEncode(c);
    assert forall i :: 0 <= i < |Encode(c)| ==> bytes[i] == Encode(c)[i];
  }

  /** A text is as long as its encoding. */
  lemma {:induction false} ByteLengthCountsBytes(s: string)
    ensures ByteLength(s) == |Bytes(s)|
  {
    if s != "" {
      ByteLengthCountsBytes(s[1..]);
    }
  }

  /** Different texts have different encodings. */
  lemma {:induction false} BytesTellTextsApart(a: string, b: string)
    requires Bytes(a) == Bytes(b)
    ensures a == b
  {
    if a != "" && b != "" {
      DecodeFirst(a[0], Bytes(a[1..]));
      DecodeFirst(b[0], Bytes(b[1..]));
      assert a[0] == b[0];
      assert Bytes(a[1..]) == Bytes(a)[|Encode(a[0])|..] && Bytes(b[1..]) == Bytes(b)[|Encode(b[0])|..];
      BytesTellTextsApart(a[1..], b[1..]);
      assert a == [a[0]] + a[1..] && b == [b[0]] + b[1..];
    }
  }
}
