/** Decimal numerals as the programs print and read them (std::to_string, std::stoull). */
module Decimals {
  predicate IsDigit(c: char) { '0' <= c <= '9' }

  ghost predicate AllDigits(text: string) { forall i :: 0 <= i < |text| ==> IsDigit(text[i]) }

  function DigitChar(d: nat): (c: char)
    requires d < 10
    ensures IsDigit(c) && DigitValue(c) == d
  {
    ('0' as int + d) as char
  }

  function DigitValue(c: char): nat
    requires IsDigit(c)
  {
    c as int - '0' as int
  }

  /** The decimal numeral of a natural number, without leading zeros. */
  function Show(n: nat): (text: string)
    ensures |text| > 0 && AllDigits(text)
  {
    if n < 10 then [DigitChar(n)] else Show(n / 10) + [DigitChar(n % 10)]
  }

  function ShowInt(n: int): (text: string)
    ensures |text| > 0
  {
    if n < 0 then "-" + Show(-n) else Show(n)
  }

  function Read(text: string): nat
    requires AllDigits(text)
  {
    if text == "" then 0 else Read(text[..|text| - 1]) * 10 + DigitValue(text[|text| - 1])
  }

  function Power(n: nat): nat { if n == 0 then 1 else 10 * Power(n - 1) }

  lemma {:induction false} ReadBound(text: string)
    requires AllDigits(text)
    ensures Read(text) < Power(|text|)
  {
    if text != "" {
      ReadBound(text[..|text| - 1]);
    }
  }

  /** Reading a printed number gives the number back. */
  lemma {:induction false} ReadShow(n: nat)
    ensures Read(Show(n)) == n
  {
    if n >= 10 {
      ReadShow(n / 10);
      assert Show(n)[..|Show(n)| - 1] == Show(n / 10);
    } else {
      assert Show(n)[..0] == "";
    }
  }

  /** Distinct integers print differently. */
  lemma ShowIntInjective(m: int, n: int)
    requires ShowInt(m) == ShowInt(n)
    ensures m == n
  {
    var s, t := Show(if m < 0 then -m else m), Show(if n < 0 then -n else n);
    ReadShow(if m < 0 then -m else m);
    ReadShow(if n < 0 then -n else n);
    assert IsDigit(s[0]) && IsDigit(t[0]);
    assert m < 0 ==> ShowInt(m)[1..] == s;
    assert n < 0 ==> ShowInt(n)[1..] == t;
  }

  /** A run of digits that ends at the first non-digit can be split off in only one way. */
  lemma DigitPrefixUnique(a: string, b: string, x: string, y: string)
    requires AllDigits(a) && AllDigits(b)
    requires |x| > 0 && |y| > 0 && !IsDigit(x[0]) && !IsDigit(y[0])
    requires a + x == b + y
    ensures a == b && x == y
  {
    var whole := a + x;
    assert !IsDigit(whole[|a|]) && forall i :: 0 <= i < |a| ==> IsDigit(whole[i]);
    assert whole == b + y;
    assert !IsDigit(whole[|b|]) && forall i :: 0 <= i < |b| ==> IsDigit(whole[i]);
    assert |a| == |b|;
    assert (a + x)[..|a|] == a && (b + y)[..|b|] == b;
    assert (a + x)[|a|..] == x && (b + y)[|b|..] == y;
  }
}
