/** Internet addresses as text: four numbers with dots between them. */
module Addresses {
  import opened Text
  import opened Numerals

  predicate IsOctet(s: string) {
    1 <= |s| <= 3 && AllDigits(s) && (|s| == 1 || s[0] != '0') && DecimalValue(s) <= 255
  }

  /** Four octets without leading zeros, so the text of an address is the address. */
  predicate IsIpv4(s: string) {
    var parts := Split(s, '.');
    |parts| == 4 && forall i :: 0 <= i < 4 ==> IsOctet(parts[i])
  }

  function Dotted(a: nat, b: nat, c: nat, d: nat): string {
    ToDecimal(a) + "." + (ToDecimal(b) + "." + (ToDecimal(c) + "." + ToDecimal(d)))
  }

  lemma OctetIsPrinted(n: nat)
    requires n <= 255
    ensures IsOctet(ToDecimal(n)) && '.' !in ToDecimal(n)
  {
    PrintedIsPrinted(n);
    PrintedValue(n);
    if n >= 10 {
      assert |ToDecimal(n / 10)| <= 2;
    }
  }

  lemma PrintedIsOctet(s: string)
    requires IsOctet(s)
    ensures ToDecimal(DecimalValue(s)) == s
  {
    PrintUndoesRead(s);
  }

  lemma JoinFour(parts: seq<string>)
    requires |parts| == 4
    ensures JoinWith(parts, '.') == parts[0] + "." + (parts[1] + "." + (parts[2] + "." + parts[3]))
  {
    assert JoinWith(parts[3..], '.') == parts[3];
    assert parts[2..][1..] == parts[3..];
    assert JoinWith(parts[2..], '.') == parts[2] + "." + parts[3];
    assert parts[1..][1..] == parts[2..];
    assert JoinWith(parts[1..], '.') == parts[1] + "." + (parts[2] + "." + parts[3]);
  }

  /** Every address is the text of four numbers up to 255. */
  lemma Ipv4IsDotted(s: string) returns (a: nat, b: nat, c: nat, d: nat)
    requires IsIpv4(s)
    ensures a <= 255 && b <= 255 && c <= 255 && d <= 255 && s == Dotted(a, b, c, d)
  {
    var parts := Split(s, '.');
    a, b, c, d := DecimalValue(parts[0]), DecimalValue(parts[1]), DecimalValue(parts[2]), DecimalValue(parts[3]);
    PrintedIsOctet(parts[0]);
    PrintedIsOctet(parts[1]);
    PrintedIsOctet(parts[2]);
    PrintedIsOctet(parts[3]);
    SplitThenJoin(s, '.');
    JoinFour(parts);
  }

  /** And the text of any four such numbers is an address. */
  lemma DottedIsIpv4(a: nat, b: nat, c: nat, d: nat)
    requires a <= 255 && b <= 255 && c <= 255 && d <= 255
    ensures IsIpv4(Dotted(a, b, c, d))
  {
    OctetIsPrinted(a);
    OctetIsPrinted(b);
    OctetIsPrinted(c);
    OctetIsPrinted(d);
    var parts := [ToDecimal(a), ToDecimal(b), ToDecimal(c), ToDecimal(d)];
    JoinFour(parts);
    JoinThenSplit(parts, '.');
  }

  /** A text is an address if and only if it is the text of four numbers up to 255. */
  lemma Ipv4Exactly(s: string)
    ensures IsIpv4(s) <==> exists a: nat, b: nat, c: nat, d: nat ::
              a <= 255 && b <= 255 && c <= 255 && d <= 255 && s == Dotted(a, b, c, d)
  {
    if IsIpv4(s) {
      var a, b, c, d := Ipv4IsDotted(s);
    }
    if a: nat, b: nat, c: nat, d: nat :|
         a <= 255 && b <= 255 && c <= 255 && d <= 255 && s == Dotted(a, b, c, d) {
      DottedIsIpv4(a, b, c, d);
    }
  }

  lemma ShortDecimals(n: nat)
    ensures n < 10 ==> ToDecimal(n) == [Digit(n)]
    ensures 10 <= n < 100 ==> ToDecimal(n) == [Digit(n / 10), Digit(n % 10)]
    ensures 100 <= n < 1000 ==> ToDecimal(n) == [Digit(n / 100), Digit(n / 10 % 10), Digit(n % 10)]
  {
    if n >= 10 {
      assert ToDecimal(n) == ToDecimal(n / 10) + [Digit(n % 10)];
      if n >= 100 {
        assert ToDecimal(n / 10) == ToDecimal(n / 10 / 10) + [Digit(n / 10 % 10)];
      }
    }
  }
}
