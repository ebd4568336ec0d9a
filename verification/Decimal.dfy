/** Decimal text of integers: `std::to_string` / fmt's `{}` on one side, `std::strtol` / `std::stoull` on the other. */
module Decimal {
  predicate IsDigit(c: char) {
    '0' <= c <= '9'
  }

  predicate AllDigits(s: string) {
    forall i :: 0 <= i < |s| ==> IsDigit(s[i])
  }

  function DigitChar(d: nat): (c: char)
    requires d < 10
    ensures IsDigit(c) && DigitValue(c) == d
  {
    ('0' as int + d) as char
  }

  function DigitValue(c: char): nat
    requires IsDigit(c)
  {
    c as int - '0' as int
  }

  function Print(n: nat): (s: string)
    ensures |s| > 0 && AllDigits(s)
  {
    if n < 10 then [DigitChar(n)] else Print(n / 10) + [DigitChar(n % 10)]
  }

  function PrintInt(c: int): string {
    if c < 0 then "-" + Print(-c) else Print(c)
  }

  function Value(s: string): nat
    requires AllDigits(s)
  {
    if s == [] then 0 else 10 * Value(s[..|s| - 1]) + DigitValue(s[|s| - 1])
  }

  /** How many leading characters are digits. */
  function DigitRun(s: string): (k: nat)
    ensures k <= |s| && AllDigits(s[..k])
    ensures k < |s| ==> !IsDigit(s[k])
  {
    if s == [] || !IsDigit(s[0]) then 0
    else
      var k := 1 + DigitRun(s[1..]);
      assert s[1..][..k - 1] == s[..k][1..];
      assert forall i :: 1 <= i < k ==> s[i] == s[1..][i - 1];
      k
  }

  predicate IsSpace(c: char) {
    c == ' ' || c == '\t' || c == '\n' || c == '\r' || c as int == 11 || c as int == 12
  }

  /** `std::strtol(s, nullptr, 10)` without saturation: blanks, an optional sign, then the longest run of digits;
      0 when no digit follows. */
  function Strtol(s: string): int {
    if s == [] then 0
    else if IsSpace(s[0]) then Strtol(s[1..])
    else if s[0] == '-' then -(Value(s[1..][..DigitRun(s[1..])]) as int)
    else if s[0] == '+' then Value(s[1..][..DigitRun(s[1..])])
    else Value(s[..DigitRun(s)])
  }

  lemma {:induction false} ValueOfPrint(n: nat)
    ensures Value(Print(n)) == n
  {
    if n >= 10 {
      ValueOfPrint(n / 10);
      var s := Print(n);
      assert s[..|s| - 1] == Print(n / 10);
      assert s[|s| - 1] == DigitChar(n % 10);
    } else {
      assert Print(n)[..0] == [];
    }
  }

  lemma PrintInjective(m: nat, n: nat)
    requires Print(m) == Print(n)
    ensures m == n
  {
    ValueOfPrint(m);
    ValueOfPrint(n);
  }

  lemma {:induction false} DigitRunOfPrefix(digits: string, rest: string)
    requires AllDigits(digits)
    requires rest != [] ==> !IsDigit(rest[0])
    ensures DigitRun(digits + rest) == |digits|
    ensures (digits + rest)[..|digits|] == digits
  {
    if digits != [] {
      assert (digits + rest)[1..] == digits[1..] + rest;
      DigitRunOfPrefix(digits[1..], rest);
    } else {
      assert digits + rest == rest;
    }
  }

  lemma StrtolOfDigits(digits: string, rest: string)
    requires digits != [] && AllDigits(digits)
    requires rest != [] ==> !IsDigit(rest[0])
    ensures Strtol(digits + rest) == Value(digits)
    ensures Strtol(['-'] + (digits + rest)) == -(Value(digits) as int)
  {
    DigitRunOfPrefix(digits, rest);
    assert IsDigit((digits + rest)[0]);
    assert (['-'] + (digits + rest))[1..] == digits + rest;
  }

  /** Parsing gives back any printed integer, whatever non-digit text follows it. */
  lemma StrtolOfPrintInt(c: int, rest: string)
    requires rest != [] ==> !IsDigit(rest[0])
    ensures Strtol(PrintInt(c) + rest) == c
  {
    var n: nat := if c < 0 then -c else c;
    ValueOfPrint(n);
    StrtolOfDigits(Print(n), rest);
    assert c < 0 ==> PrintInt(c) + rest == ['-'] + (Print(n) + rest);
  }
}
