/** Decimal text as Go's strconv package prints and reads it in base 10. */
module Decimals {
  import opened Outcomes

  predicate IsDigit(c: char) { '0' <= c <= '9' }

  function DigitValue(c: char): nat
    requires IsDigit(c)
  {
    c as nat - '0' as nat
  }

  function DigitChar(d: nat): (c: char)
    requires d < 10
    ensures IsDigit(c) && DigitValue(c) == d
  {
    (d + '0' as nat) as char
  }

  predicate AllDigits(s: string) { forall i :: 0 <= i < |s| ==> IsDigit(s[i]) }

  /** FormatUint. */
  function Print(n: nat): string {
    if n < 10 then [DigitChar(n)] else Print(n / 10) + [DigitChar(n % 10)]
  }

  /** The number a string of digits denotes. */
  function Value(s: string): nat
    requires AllDigits(s)
  {
    if s == "" then 0 else Value(s[..|s| - 1]) * 10 + DigitValue(s[|s| - 1])
  }

  /** ParseUint for numbers below the given limit: digits only, at least one, any number of
      leading zeros. */
  function ParseUint(s: string, limit: nat): Option<nat> {
    if s == "" || !AllDigits(s) || Value(s) >= limit then None else Some(Value(s))
  }

  const INT64_LIMIT: nat := 0x8000_0000_0000_0000

  /** ParseInt for 64 bits: an optional sign before the digits. */
  function ParseInt64(s: string): Option<int> {
    var negative := s != "" && s[0] == '-';
    var digits := if s != "" && (s[0] == '-' || s[0] == '+') then s[1..] else s;
    var magnitude := ParseUint(digits, if negative then INT64_LIMIT + 1 else INT64_LIMIT);
    if magnitude.None? then None else Some(if negative then -(magnitude.value as int) else magnitude.value as int)
  }

  /** Digits without a superfluous leading zero. */
  predicate Canonical(s: string) {
    s != "" && AllDigits(s) && (s[0] == '0' ==> |s| == 1)
  }

  /** What is printed is canonical and denotes the number. */
  lemma {:induction false} PrintSpec(n: nat)
    ensures Canonical(Print(n)) && Value(Print(n)) == n
    ensures Print(n)[0] == '0' ==> n == 0
  {
    if n < 10 {
      assert Print(n)[..0] == "";
    } else {
      PrintSpec(n / 10);
      assert Print(n)[..|Print(n)| - 1] == Print(n / 10);
    }
  }

  lemma {:induction false} LeadingDigit(s: string)
    requires s != "" && AllDigits(s) && s[0] != '0'
    ensures Value(s) > 0 && (|s| > 1 ==> Value(s) >= 10)
  {
    if |s| > 1 {
      LeadingDigit(s[..|s| - 1]);
    } else {
      assert s[..0] == "";
    }
  }

  /** Printing what was read gives the text back exactly when the text is canonical. */
  lemma {:induction false} PrintOfValue(s: string)
    requires s != "" && AllDigits(s)
    ensures Print(Value(s)) == s <==> Canonical(s)
  {
    PrintSpec(Value(s));
    if Canonical(s) {
      CanonicalPrints(s);
    }
  }

  lemma {:induction false} CanonicalPrints(s: string)
    requires Canonical(s)
    ensures Print(Value(s)) == s
  {
    if |s| == 1 {
      assert s[..0] == "" && s == [s[0]];
    } else {
      var front, last := s[..|s| - 1], s[|s| - 1];
      LeadingDigit(s);
      CanonicalPrints(front);
      assert Value(s) / 10 == Value(front) && Value(s) % 10 == DigitValue(last);
      assert s == front + [last];
    }
  }

  /** Reading what was printed gives the number back. */
  lemma ParsePrinted(n: nat, limit: nat)
    ensures ParseUint(Print(n), limit) == if n < limit then Some(n) else None
    ensures n < INT64_LIMIT ==> ParseInt64(Print(n)) == Some(n)
  {
    PrintSpec(n);
    assert Print(n) != "" && Print(n)[0] != '-' && Print(n)[0] != '+' by { assert IsDigit(Print(n)[0]); }
  }
}
