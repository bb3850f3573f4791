/** Unsigned numbers as decimal text. */
module Numerals {
  import opened Wrappers
  import opened Text

  function Digit(d: nat): char
    requires d < 10
  {
    ('0' as int + d) as char
  }

  function ToDecimal(n: nat): string {
    if n < 10 then [Digit(n)] else ToDecimal(n / 10) + [Digit(n % 10)]
  }

  predicate AllDigits(s: string) {
    forall i :: 0 <= i < |s| ==> IsDigit(s[i])
  }

  function DecimalValue(s: string): nat
    requires AllDigits(s)
  {
    if s == "" then 0 else DecimalValue(s[..|s| - 1]) * 10 + (s[|s| - 1] as int - '0' as int)
  }

  /** Digits, at least one, after an optional plus sign, and no more than `max`. */
  function ParseUnsigned(s: string, max: nat): Option<nat> {
    var digits := if s != "" && s[0] == '+' then s[1..] else s;
    if digits != "" && AllDigits(digits) && DecimalValue(digits) <= max then Some(DecimalValue(digits)) else None
  }

  lemma {:induction false} PrintedValue(n: nat)
    ensures ToDecimal(n) != "" && AllDigits(ToDecimal(n))
    ensures DecimalValue(ToDecimal(n)) == n
  {
    if n < 10 {
      assert ToDecimal(n)[..0] == "";
    } else {
      PrintedValue(n / 10);
      assert ToDecimal(n)[..|ToDecimal(n)| - 1] == ToDecimal(n / 10);
    }
  }

  /** Parsing undoes printing, up to the limit. */
  lemma ParseUndoesPrint(n: nat, max: nat)
    ensures ParseUnsigned(ToDecimal(n), max) == if n <= max then Some(n) else None
  {
    PrintedValue(n);
    assert IsDigit(ToDecimal(n)[0]);
  }

  /** How a number may be written: digits, with or without a plus sign before them. */
  ghost predicate Denotes(s: string, n: nat) {
    exists digits ::
      (s == digits || s == "+" + digits) && digits != "" && AllDigits(digits) && DecimalValue(digits) == n
  }

  /** Parsing finds exactly the numbers that are written so, up to the limit. */
  lemma ParsesWhatIsDenoted(s: string, max: nat, n: nat)
    ensures ParseUnsigned(s, max) == Some(n) <==> Denotes(s, n) && n <= max
  {
    if ParseUnsigned(s, max) == Some(n) {
      var digits := if s != "" && s[0] == '+' then s[1..] else s;
      assert s == digits || s == "+" + digits;
    }
    if Denotes(s, n) {
      var digits :|
        (s == digits || s == "+" + digits) && digits != "" && AllDigits(digits) && DecimalValue(digits) == n;
      assert IsDigit(digits[0]);
      assert s == "+" + digits ==> s[1..] == digits;
    }
  }

  /** A text that printing a number can give: digits, and no zero in front of others. */
  predicate IsPrinted(s: string) {
    s != "" && AllDigits(s) && (s[0] == '0' ==> |s| == 1)
  }

  lemma {:induction false} PrintedIsPrinted(n: nat)
    ensures IsPrinted(ToDecimal(n))
    ensures n > 0 ==> ToDecimal(n)[0] != '0'
  {
    if n >= 10 {
      PrintedIsPrinted(n / 10);
      PrintedValue(n);
    }
  }

  lemma LeadingDigitCounts(s: string)
    requires s != "" && AllDigits(s) && s[0] != '0'
    ensures DecimalValue(s) > 0
  {
    if |s| > 1 {
      LeadingDigitCounts(s[..|s| - 1]);
    }
  }

  /** Printing undoes reading, on exactly those texts. */
  lemma {:induction false} PrintUndoesRead(s: string)
    requires IsPrinted(s)
    ensures ToDecimal(DecimalValue(s)) == s
  {
    var init, last := s[..|s| - 1], s[|s| - 1];
    var d := last as int - '0' as int;
    assert DecimalValue(s) == DecimalValue(init) * 10 + d;
    if |s| == 1 {
      assert init == "" && DecimalValue(init) == 0;
      assert s == [last];
    } else {
      LeadingDigitCounts(init);
      PrintUndoesRead(init);
      assert DecimalValue(s) / 10 == DecimalValue(init) && DecimalValue(s) % 10 == d;
      assert s == init + [last];
    }
  }

  lemma DifferentNumbersPrintDifferently(a: nat, b: nat)
    requires ToDecimal(a) == ToDecimal(b)
    ensures a == b
  {
    PrintedValue(a);
    PrintedValue(b);
  }
}
