/** Decimal text of integers: what strconv.AppendInt and fmt's %d print, and how digits are read back. */
module Decimal {
  import opened Basics

  predicate IsDigit(c: char) { '0' <= c <= '9' }

  predicate AllDigits(s: string) { forall i :: 0 <= i < |s| ==> IsDigit(s[i]) }

  function DigitChar(d: nat): char
    requires d < 10
  {
    '0' + d as char
  }

  function DigitValue(c: char): nat
    requires IsDigit(c)
  {
    c as int - '0' as int
  }

  function Digits(n: nat): (s: string)
    ensures |s| >= 1 && AllDigits(s)
  {
    if n < 10 then [DigitChar(n)] else Digits(n / 10) + [DigitChar(n % 10)]
  }

  /** The decimal text of `i`, with a minus sign when it is negative. */
  function Text(i: int): (s: string)
    ensures |s| >= 1
  {
    if i < 0 then "-" + Digits(-i) else Digits(i)
  }

  /** The number a run of digits stands for. */
  function Value(s: string): nat
    requires AllDigits(s)
  {
    if s == [] then 0 else Value(s[..|s| - 1]) * 10 + DigitValue(s[|s| - 1])
  }

  lemma {:induction false} ValueOfDigits(n: nat)
    ensures Value(Digits(n)) == n
  {
    if n >= 10 {
      ValueOfDigits(n / 10);
      var s := Digits(n);
      assert s[..|s| - 1] == Digits(n / 10);
    }
  }

  /** The text is the numeral of `n`: digits only, without a leading zero. */
  predicate Numeral(s: string, n: nat) {
    s != [] && AllDigits(s) && (s[0] == '0' ==> |s| == 1) && Value(s) == n
  }

  lemma {:induction false} DigitsStart(n: nat)
    ensures Digits(n)[0] == '0' ==> n == 0
  {
    if n >= 10 { DigitsStart(n / 10); }
  }

  lemma OneDigit(c: char)
    requires IsDigit(c)
    ensures Value([c]) == DigitValue(c) && Digits(Value([c])) == [c]
  {
    assert [c][..0] == [];
  }

  /** One digit more behind a number that is not zero. */
  lemma OneMoreDigit(n: nat, c: char)
    requires n > 0 && IsDigit(c)
    ensures Digits(n * 10 + DigitValue(c)) == Digits(n) + [c]
  {
    var m := n * 10 + DigitValue(c);
    assert m / 10 == n && m % 10 == DigitValue(c);
    assert DigitChar(DigitValue(c)) == c;
  }

  lemma {:induction false} NumeralIsDigits(s: string)
    requires s != [] && AllDigits(s) && (s[0] == '0' ==> |s| == 1)
    ensures s == Digits(Value(s))
    decreases |s|
  {
    if |s| == 1 {
      OneDigit(s[0]);
      assert s == [s[0]];
    } else {
      var front := s[..|s| - 1];
      assert front[0] == s[0];
      NumeralIsDigits(front);
      assert Value(front) > 0;
      OneMoreDigit(Value(front), s[|s| - 1]);
      assert s == front + [s[|s| - 1]];
    }
  }

  /** Every number has one numeral, the one that is printed. */
  lemma NumeralIff(s: string, n: nat)
    ensures Numeral(s, n) <==> s == Digits(n)
  {
    ValueOfDigits(n);
    DigitsStart(n);
    if Numeral(s, n) { NumeralIsDigits(s); }
  }

  lemma DigitsInjective(m: nat, n: nat)
    requires Digits(m) == Digits(n)
    ensures m == n
  {
    ValueOfDigits(m);
    ValueOfDigits(n);
  }

  /** The text of a negative number starts with the sign, and no other does. */
  lemma SignOfText(i: int)
    ensures i < 0 ==> Text(i)[0] == '-' && Text(i)[1..] == Digits(-i)
    ensures i >= 0 ==> IsDigit(Text(i)[0])
  {
  }

  /** Different numbers print differently. */
  lemma TextInjective(i: int, j: int)
    requires Text(i) == Text(j)
    ensures i == j
  {
    SignOfText(i);
    SignOfText(j);
    if i < 0 { DigitsInjective(-i, -j); } else { DigitsInjective(i, j); }
  }

  /** The text is the numeral of `i`, after a minus sign if it is negative. */
  predicate SignedNumeral(s: string, i: int) {
    if i < 0 then s != [] && s[0] == '-' && Numeral(s[1..], -i) else Numeral(s, i)
  }

  /** Every integer has one text, the one that is printed. */
  lemma SignedNumeralIff(s: string, i: int)
    ensures SignedNumeral(s, i) <==> s == Text(i)
  {
    SignOfText(i);
    if i < 0 {
      if s != [] { NumeralIff(s[1..], -i); }
      if SignedNumeral(s, i) { assert s == [s[0]] + s[1..]; }
    } else {
      NumeralIff(s, i);
    }
  }

  // ----- Reading 64-bit integers -----

  const INT64_MIN: int := -0x8000_0000_0000_0000
  const INT64_MAX: int := 0x7fff_ffff_ffff_ffff

  predicate InInt64(i: int) { INT64_MIN <= i <= INT64_MAX }

  /** strconv.ParseInt(s, 10, 64), and strconv.Atoi: an optional sign, at least one digit, nothing else, in range. */
  function ParseInt(s: string): Option<int> {
    if s == [] then None
    else
      var signed := s[0] == '-' || s[0] == '+';
      var digits := if signed then s[1..] else s;
      if digits == [] || !AllDigits(digits) then None
      else
        var i: int := if s[0] == '-' then 0 - Value(digits) else Value(digits);
        if InInt64(i) then Some(i) else None
  }

  lemma ParseIntOfText(i: int)
    requires InInt64(i)
    ensures ParseInt(Text(i)) == Some(i)
  {
    SignOfText(i);
    if i < 0 { ParseSigned(Digits(-i), -i); } else { ParsePlain(Digits(i), i); }
  }

  lemma ParseSigned(digits: string, n: nat)
    requires digits == Digits(n) && InInt64(0 - n)
    ensures ParseInt("-" + digits) == Some(0 - n)
  {
    assert ("-" + digits)[1..] == digits;
    ValueOfDigits(n);
  }

  lemma ParsePlain(digits: string, n: nat)
    requires digits == Digits(n) && InInt64(n)
    ensures ParseInt(digits) == Some(n)
  {
    assert IsDigit(digits[0]);
    ValueOfDigits(n);
  }
}
