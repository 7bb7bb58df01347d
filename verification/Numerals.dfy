// Positional numerals and their digits.
module Numerals {

  function Horner(digits: seq<nat>, base: nat): nat {
    if digits == [] then 0 else Horner(digits[..|digits| - 1], base) * base + digits[|digits| - 1]
  }

  function Digits(n: nat, base: nat): (digits: seq<nat>)
    requires base >= 2
    ensures |digits| >= 1 && (n > 0 ==> digits[0] > 0)
    ensures forall i :: 0 <= i < |digits| ==> digits[i] < base
    decreases n
  {
    if n < base then [n] else
      Quotient(n, base);
      Digits(n / base, base) + [n % base]
  }

  lemma Quotient(n: nat, base: nat)
    requires 2 <= base <= n
    ensures 0 < n / base < n && n / base * base + n % base == n
  {
  }

  lemma LastDigit(digits: seq<nat>, d: nat, base: nat)
    ensures Horner(digits + [d], base) == Horner(digits, base) * base + d
  {
    assert (digits + [d])[..|digits|] == digits;
  }

  lemma {:induction false} HornerOfDigits(n: nat, base: nat)
    requires base >= 2
    ensures Horner(Digits(n, base), base) == n
    decreases n
  {
    if n < base {
      assert [n] == [] + [n];
      LastDigit([], n, base);
    } else {
      hide Horner;
      Quotient(n, base);
      HornerOfDigits(n / base, base);
      LastDigit(Digits(n / base, base), n % base, base);
    }
  }

  predicate IsHexDigit(c: char) {
    '0' <= c <= '9' || 'a' <= c <= 'f' || 'A' <= c <= 'F'
  }

  // The value of a digit character.
  function DigitValue(c: char): (d: nat)
    requires IsHexDigit(c)
    ensures d < 16
  {
    if c <= '9' then c as int - '0' as int
    else if c <= 'F' then c as int - 'A' as int + 10
    else c as int - 'a' as int + 10
  }

  // The digits, in order; letters of either case count.
  const LOWER: string := "0123456789abcdef"
  const UPPER: string := "0123456789ABCDEF"

  lemma DigitTable(c: char, d: nat)
    requires d < 16
    ensures IsHexDigit(c) && DigitValue(c) == d <==> c == LOWER[d] || c == UPPER[d]
    ensures DigitChar(d) == LOWER[d]
  {
  }

  // The digit character that printf writes.
  function DigitChar(d: nat): (c: char)
    requires d < 16
    ensures IsHexDigit(c) && DigitValue(c) == d && (d < 10 ==> c <= '9') && (c == '0' ==> d == 0)
  {
    if d < 10 then '0' + d as char else 'a' + (d - 10) as char
  }

  function Values(s: string): (v: seq<nat>)
    requires forall c :: c in s ==> IsHexDigit(c)
    ensures |v| == |s| && forall i :: 0 <= i < |s| ==> v[i] == DigitValue(s[i])
  {
    seq(|s|, i requires 0 <= i < |s| => DigitValue(s[i]))
  }

  function Rendered(n: nat, base: nat): (s: string)
    requires 2 <= base <= 16
    ensures |s| == |Digits(n, base)| && forall i :: 0 <= i < |s| ==> s[i] == DigitChar(Digits(n, base)[i])
  {
    var digits := Digits(n, base);
    seq(|digits|, i requires 0 <= i < |digits| => DigitChar(digits[i]))
  }

  lemma RenderedValue(n: nat, base: nat)
    requires 2 <= base <= 16
    ensures (forall c :: c in Rendered(n, base) ==> IsHexDigit(c) && DigitValue(c) < base)
    ensures Horner(Values(Rendered(n, base)), base) == n
  {
    HornerOfDigits(n, base);
    assert Values(Rendered(n, base)) == Digits(n, base);
  }
}
