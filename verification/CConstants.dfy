// The conversion of a C integer constant.
module CConstants {
  import opened Words
  import opened Numerals

  // Characters the digit loop goes over: decimal digits whatever the base is.
  predicate Accepted(c: char, base: nat) {
    || 'a' as int <= c as int < 'a' as int + base - 10
    || 'A' as int <= c as int < 'A' as int + base - 10
    || '0' <= c <= '9'
  }

  // What the digit loop adds for a character.
  function Masked(c: char): int {
    (if c <= '9' then c as int else c as int + 9) % 16
  }

  lemma MaskedIsDigit(c: char, base: nat)
    requires Accepted(c, base) && base <= 16
    ensures IsHexDigit(c) && Masked(c) == DigitValue(c)
  {
  }

  // Conversion to an unsigned int.
  function ToU32(x: int): (u: int)
    ensures 0 <= u < TWO_32
  {
    x % TWO_32
  }

  function Accumulated(n: int, base: nat, c: char): int {
    ToU32(n * base + Masked(c))
  }

  // Sign, base and digits of a constant.
  datatype Parts = Parts(negative: bool, base: nat, start: nat)

  predicate CharAt(s: string, i: nat, c: char) {
    i < |s| && s[i] == c
  }

  function PartsOf(s: string): (p: Parts)
    ensures p.start <= |s| && 2 <= p.base <= 16
  {
    var neg := CharAt(s, 0, '-');
    var i := if neg then 1 else 0;
    if !CharAt(s, i, '0') then Parts(neg, 10, i)
    else if CharAt(s, i + 1, 'x') || CharAt(s, i + 1, 'X') then Parts(neg, 16, i + 2)
    else if CharAt(s, i + 1, 'b') || CharAt(s, i + 1, 'B') then Parts(neg, 2, i + 2)
    else Parts(neg, 8, i + 1)
  }

  // Where the longest accepted run of digits from `i` on ends.
  function RunEnd(s: string, i: nat, base: nat): (e: nat)
    requires i <= |s|
    ensures i <= e <= |s| && (e < |s| ==> !Accepted(s[e], base))
    ensures forall k :: i <= k < e ==> Accepted(s[k], base)
    decreases |s| - i
  {
    if i < |s| && Accepted(s[i], base) then RunEnd(s, i + 1, base) else i
  }

  function Signed(negative: bool, n: nat): (v: I32) {
    var m: int := n;
    ToI32(if negative then -m else m)
  }

  function Run(s: string): (run: string)
    ensures forall c :: c in run ==> IsHexDigit(c)
  {
    var p := PartsOf(s);
    s[p.start..RunEnd(s, p.start, p.base)]
  }

  // What the constant means.
  function ConstantValue(s: string): I32 {
    Signed(PartsOf(s).negative, Horner(Values(Run(s)), PartsOf(s).base))
  }

  // opennsl_ctoi; `end` is the cursor the caller gets back. A null string reads as zero.
  method Ctoi(str: Option<string>) returns (value: I32, end: nat)
    ensures str.None? ==> value == 0 && end == 0
    ensures str.Some? ==>
              var p := PartsOf(str.value);
              value == ConstantValue(str.value) && end == RunEnd(str.value, p.start, p.base)
  {
    if str.None? {
      return 0, 0;
    }
    var s := str.value;
    var i, base := 0, 10;
    var neg := CharAt(s, 0, '-');
    if neg {
      i := i + 1;
    }
    if CharAt(s, i, '0') {
      i := i + 1;
      if CharAt(s, i, 'x') || CharAt(s, i, 'X') {
        base := 16;
        i := i + 1;
      } else if CharAt(s, i, 'b') || CharAt(s, i, 'B') {
        base := 2;
        i := i + 1;
      } else {
        base := 8;
      }
    }
    assert PartsOf(s) == Parts(neg, base, i);
    value, end := ReadDigits(s, neg, base, i);
  }

  // The digit loop and the sign.
  method ReadDigits(s: string, neg: bool, base: nat, start: nat) returns (value: I32, end: nat)
    requires start <= |s| && 2 <= base <= 16
    ensures end == RunEnd(s, start, base)
    ensures forall c :: c in s[start..end] ==> IsHexDigit(c)
    ensures value == Signed(neg, Horner(Values(s[start..end]), base))
  {
    hide Horner, Values, Accumulated, Accepted, Signed, ToU32, ToI32;
    var n, i := 0, start;
    NoDigits(base);
    assert s[start..i] == "";
    while i < |s| && Accepted(s[i], base)
      invariant start <= i <= RunEnd(s, start, base)
      invariant RunEnd(s, i, base) == RunEnd(s, start, base)
      invariant forall c :: c in s[start..i] ==> IsHexDigit(c)
      invariant n == ToU32(Horner(Values(s[start..i]), base))
    {
      NextDigit(s, start, i, base);
      n := Accumulated(n, base, s[i]);
      i := i + 1;
    }
    end := i;
    WrappedSign(neg, Horner(Values(s[start..end]), base));
    value := ToI32(if neg then ToU32(-n) else n);
  }

  lemma NextDigit(s: string, start: nat, i: nat, base: nat)
    requires start <= i < |s| && 2 <= base <= 16 && forall k :: start <= k <= i ==> Accepted(s[k], base)
    ensures forall c :: c in s[start..i + 1] ==> IsHexDigit(c)
    ensures ToU32(Horner(Values(s[start..i + 1]), base)) == Accumulated(ToU32(Horner(Values(s[start..i]), base)), base, s[i])
  {
    hide Horner, Values, Masked;
    assert s[start..i] + [s[i]] == s[start..i + 1];
    OneMoreDigit(s[start..i], s[i], base);
    MaskedIsDigit(s[i], base);
  }

  // The accumulator may wrap at every digit.
  lemma OneMoreDigit(s: string, c: char, base: nat)
    requires (forall c :: c in s ==> IsHexDigit(c)) && IsHexDigit(c)
    ensures Horner(Values(s + [c]), base) == Horner(Values(s), base) * base + DigitValue(c)
    ensures Horner(Values(s + [c]), base) % TWO_32 == (Horner(Values(s), base) % TWO_32 * base + DigitValue(c)) % TWO_32
  {
    assert Values(s + [c])[..|s|] == Values(s);
    WrapEarly(Horner(Values(s), base), base, DigitValue(c));
  }

  lemma WrapEarly(h: nat, base: nat, d: nat)
    ensures (h * base + d) % TWO_32 == (h % TWO_32 * base + d) % TWO_32
  {
    var q := h / TWO_32;
    assert h * base + d == h % TWO_32 * base + d + TWO_32 * (q * base) by {
      assert h == h % TWO_32 + TWO_32 * q;
    }
    WrapTurns(h % TWO_32 * base + d, q * base);
  }

  lemma WrapTurns(x: int, k: int)
    ensures (x + TWO_32 * k) % TWO_32 == x % TWO_32
  {
  }

  lemma WrappedSign(negative: bool, n: nat)
    ensures ToI32(if negative then ToU32(-ToU32(n)) else ToU32(n)) == Signed(negative, n)
  {
    hide ToI32;
    var m: int := n;
    if negative {
      SameWrap(ToU32(-ToU32(m)), -m, m / TWO_32 - (-ToU32(m)) / TWO_32);
    } else {
      SameWrap(ToU32(m), m, -(m / TWO_32));
    }
  }

  // ---------- what the conversion inverts ----------

  // The letter of a prefix may be upper-case.
  datatype Notation = Decimal | Octal | Hexadecimal(upper: bool) | Binary(upper: bool)

  function BaseOf(notation: Notation): (b: nat)
    ensures 2 <= b <= 16
  {
    match notation
    case Decimal => 10
    case Octal => 8
    case Hexadecimal(_) => 16
    case Binary(_) => 2
  }

  function Written(v: int, notation: Notation): string {
    var sign := if v < 0 then "-" else "";
    var prefix := match notation
      case Decimal => ""
      case Octal => "0"
      case Hexadecimal(upper) => if upper then "0X" else "0x"
      case Binary(upper) => if upper then "0B" else "0b";
    sign + prefix + Rendered(Magnitude(v), BaseOf(notation))
  }

  // Every int comes back from each of its notations, and any integer modulo 2^32.
  lemma WrittenConstant(v: int, notation: Notation)
    ensures ConstantValue(Written(v, notation)) == ToI32(v)
    ensures var p := PartsOf(Written(v, notation));
            RunEnd(Written(v, notation), p.start, p.base) == |Written(v, notation)|
  {
    hide Horner, Written, Rendered, Values, PartsOf, BaseOf, Signed, ToI32, RunEnd;
    WrittenParts(v, notation);
    WrittenDigits(v, notation);
    SignedMagnitude(v);
  }

  // A text that begins with neither a minus sign nor a digit is no constant: it reads as zero
  // and none of it is used.
  lemma NoConstant(s: string)
    requires s == "" || (s[0] != '-' && !('0' <= s[0] <= '9'))
    ensures ConstantValue(s) == 0 && RunEnd(s, PartsOf(s).start, PartsOf(s).base) == 0
  {
    NoDigits(10);
    assert Run(s) == "";
  }

  lemma WrittenDigits(v: int, notation: Notation)
    ensures var s := Written(v, notation);
            var p := PartsOf(s);
            Run(s) == s[p.start..] && RunEnd(s, p.start, p.base) == |s| && Horner(Values(Run(s)), p.base) == Magnitude(v)
  {
    hide Horner, Written, Rendered, Values, PartsOf, BaseOf;
    var s := Written(v, notation);
    var p := PartsOf(s);
    WrittenParts(v, notation);
    if s[p.start..] == "" {
      NoDigits(p.base);
    } else {
      RenderedValue(Magnitude(v), p.base);
      assert forall k :: p.start <= k < |s| ==> s[k] == s[p.start..][k - p.start];
      AllAccepted(s, p.start, p.base);
    }
  }

  lemma NoDigits(base: nat)
    ensures Horner(Values(""), base) == 0 == ToU32(Horner(Values(""), base))
  {
  }

  lemma SignedMagnitude(v: int)
    ensures Signed(v < 0, Magnitude(v)) == ToI32(v)
  {
  }

  function Magnitude(v: int): nat {
    if v < 0 then -v else v
  }

  // Decimal zero is written like an octal numeral without digits.
  lemma WrittenParts(v: int, notation: Notation)
    ensures var s, p := Written(v, notation), PartsOf(Written(v, notation));
            && p.negative == (v < 0)
            && if v == 0 && notation == Decimal then s[p.start..] == ""
               else p.base == BaseOf(notation) && s[p.start..] == Rendered(Magnitude(v), p.base) && s[p.start..] != ""
  {
    hide Rendered, Digits, DigitValue, DigitChar;
    FirstDigit(Magnitude(v), BaseOf(notation));
  }

  lemma FirstDigit(n: nat, base: nat)
    requires 2 <= base <= 16
    ensures var s := Rendered(n, base);
            s != "" && s[0] != '-' && (s[0] == '0' <==> n == 0) && (base <= 10 ==> s[0] <= '9') && (n == 0 ==> s == "0")
  {
  }

  lemma {:induction false} AllAccepted(s: string, i: nat, base: nat)
    requires i <= |s| && 2 <= base <= 16 && forall k :: i <= k < |s| ==> IsHexDigit(s[k]) && DigitValue(s[k]) < base
    ensures RunEnd(s, i, base) == |s|
    decreases |s| - i
  {
    if i < |s| {
      assert Accepted(s[i], base);
      AllAccepted(s, i + 1, base);
    }
  }

  // ---------- where it departs from C ----------

  // C stops at the first character that is no digit of the base.
  function StrictEnd(s: string, i: nat, base: nat): (e: nat)
    requires i <= |s|
    ensures i <= e <= |s|
    decreases |s| - i
  {
    if i < |s| && IsHexDigit(s[i]) && DigitValue(s[i]) < base then StrictEnd(s, i + 1, base) else i
  }

  // The constant read is the one C reads exactly when no accepted digit is too large for the base.
  lemma {:induction false} StrictIff(s: string, i: nat, base: nat)
    requires i <= |s| && 2 <= base <= 16 && base in {2, 8, 10, 16}
    ensures RunEnd(s, i, base) == StrictEnd(s, i, base)
            <==> forall k :: i <= k < RunEnd(s, i, base) ==> DigitValue(s[k]) < base
    decreases |s| - i
  {
    if i < |s| && Accepted(s[i], base) {
      StrictIff(s, i + 1, base);
    }
  }

  // Two in binary and nine in octal.
  lemma LargeDigits()
    ensures ConstantValue("0b2") == 2 && ConstantValue("09") == 9
  {
    assert Run("0b2") == "2" && Values("2") == [2];
    assert Run("09") == "9" && Values("9") == [9];
    assert Horner([2], 2) == 2;
    assert Horner([9], 8) == 9;
  }
}
