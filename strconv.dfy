/**
  Decimal text of Go's 64-bit `int`: how `strconv.Atoi` reads it (the `id` query value
  of the show handler) and how `fmt.Sprintf("%d", ...)` writes it (the redirect target of
  the create handler).
*/
module Strconv {
  import opened Wrappers

  const MinInt: int := -0x8000_0000_0000_0000
  const MaxInt: int := 0x7fff_ffff_ffff_ffff

  /** Go's `int` on a 64-bit platform. */
  type GoInt = x: int | MinInt <= x <= MaxInt

  predicate IsDigit(c: char) { '0' <= c <= '9' }

  predicate AllDigits(s: string) { forall i :: 0 <= i < |s| ==> IsDigit(s[i]) }

  function DigitValue(c: char): (d: nat)
    requires IsDigit(c)
    ensures d < 10
  {
    (c as int) - ('0' as int)
  }

  function DigitChar(d: nat): (c: char)
    requires d < 10
    ensures IsDigit(c) && DigitValue(c) == d
  {
    ('0' as int + d) as char
  }

  /** The value of a string of decimal digits, most significant digit first. */
  function DigitsValue(s: string): nat
    requires AllDigits(s)
  {
    if s == [] then 0 else DigitsValue(s[..|s| - 1]) * 10 + DigitValue(s[|s| - 1])
  }

  /** What is left of `s` once one leading sign, '+' or '-', is removed. */
  function Unsigned(s: string): (r: string)
    ensures r == s || (s != [] && r == s[1..])
  {
    if |s| > 0 && (s[0] == '-' || s[0] == '+') then s[1..] else s
  }

  /**
    `strconv.Atoi`: an optional sign followed by one or more ASCII digits, whose value
    fits Go's `int`; anything else (the empty string, a lone sign, any other character,
    a value out of range) is an error, here `None`. Leading zeros are accepted.
  */
  function Atoi(s: string): (r: Option<GoInt>)
    ensures r.Some? ==> Unsigned(s) != [] && AllDigits(Unsigned(s))
    ensures r.Some? && r.value < 0 ==> s[0] == '-'
  {
    var digits := Unsigned(s);
    if digits == [] || !AllDigits(digits) then None
    else
      var magnitude: int := DigitsValue(digits);
      var v: int := if s[0] == '-' then -magnitude else magnitude;
      if MinInt <= v <= MaxInt then Some(v) else None
  }

  /**
    Atoi accepts every optional sign ("", "+" or "-") followed by one or more digits, with
    the signed value of the digits, exactly when that value fits Go's `int`.
  */
  lemma AtoiSignedDigits(sign: string, digits: string)
    requires sign in {"", "+", "-"}
    requires digits != [] && AllDigits(digits)
    ensures var v: int := if sign == "-" then -(DigitsValue(digits) as int) else DigitsValue(digits);
      Atoi(sign + digits) == if MinInt <= v <= MaxInt then Some(v) else None
  {
    var s := sign + digits;
    assert s[0] == '-' <==> sign == "-";
    assert Unsigned(s) == digits;
  }

  /** The shortest decimal digits of `n`: they read back as `n` and start with '0' only for 0. */
  function FormatNat(n: nat): (r: string)
    ensures r != [] && AllDigits(r)
    ensures DigitsValue(r) == n
    ensures r[0] == '0' ==> n == 0
  {
    if n < 10 then [DigitChar(n)]
    else
      var prefix := FormatNat(n / 10);
      var r := prefix + [DigitChar(n % 10)];
      assert r[..|r| - 1] == prefix;
      r
  }

  /** `fmt.Sprintf("%d", n)`: a '-' for negative values, then the digits of the magnitude. */
  function FormatInt(n: int): string
  {
    if n < 0 then "-" + FormatNat(-n) else FormatNat(n)
  }

  /** The texts `FormatInt` produces: optional '-', digits, no leading zero, no "-0". */
  predicate IsCanonical(s: string)
  {
    var digits := if |s| > 0 && s[0] == '-' then s[1..] else s;
    digits != [] && AllDigits(digits) && (digits[0] == '0' ==> s == "0")
  }

  /** Atoi reads back every value FormatInt writes. */
  lemma AtoiFormatInt(n: GoInt)
    ensures Atoi(FormatInt(n)) == Some(n)
  {
  }

  /** FormatInt writes only canonical text. */
  lemma FormatIntCanonical(n: int)
    ensures IsCanonical(FormatInt(n))
  {
  }

  lemma {:induction false} DigitsValuePositive(s: string)
    requires s != [] && AllDigits(s) && s[0] != '0'
    ensures DigitsValue(s) >= 1
  {
    if |s| > 1 {
      DigitsValuePositive(s[..|s| - 1]);
    }
  }

  lemma {:induction false} FormatNatDigitsValue(s: string)
    requires s != [] && AllDigits(s) && (s[0] == '0' ==> s == "0")
    ensures FormatNat(DigitsValue(s)) == s
  {
    var n := DigitsValue(s);
    var last := s[|s| - 1];
    if |s| == 1 {
      assert s[..0] == [];
      assert DigitChar(DigitValue(last)) == last;
    } else {
      var prefix := s[..|s| - 1];
      DigitsValuePositive(prefix);
      FormatNatDigitsValue(prefix);
      assert n / 10 == DigitsValue(prefix) && n % 10 == DigitValue(last);
      assert DigitChar(DigitValue(last)) == last;
      assert s == prefix + [last];
    }
  }

  /** Conversely, FormatInt writes back every canonical text that Atoi accepts. */
  lemma FormatIntAtoi(s: string)
    requires IsCanonical(s) && Atoi(s).Some?
    ensures FormatInt(Atoi(s).value) == s
  {
    if s[0] == '-' {
      FormatNatDigitsValue(s[1..]);
      assert s == "-" + s[1..];
    } else {
      FormatNatDigitsValue(s);
    }
  }

  lemma {:induction false} DigitsValueLeadingZero(s: string)
    requires AllDigits(s)
    ensures AllDigits("0" + s) && DigitsValue("0" + s) == DigitsValue(s)
  {
    var z := "0" + s;
    if s != [] {
      DigitsValueLeadingZero(s[..|s| - 1]);
      assert z[..|z| - 1] == "0" + s[..|s| - 1];
    }
  }

  /** Atoi ignores leading zeros: "007" reads as 7. */
  lemma AtoiLeadingZero(s: string)
    requires s != [] && AllDigits(s)
    ensures Atoi("0" + s) == Atoi(s)
  {
    DigitsValueLeadingZero(s);
    assert Unsigned("0" + s) == "0" + s;
  }
}
