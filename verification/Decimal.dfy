/** Decimal text and 32-bit integers: the parsing and the narrowing that the retain policy goes through. */
module Decimal {
  import opened Prelude

  const MAX_INT32 := 0x7FFF_FFFF
  const MIN_INT32 := -0x8000_0000

  predicate IsDigit(c: char) {
    '0' <= c <= '9'
  }

  function DigitValue(c: char): nat
    requires IsDigit(c)
  {
    c as nat - '0' as nat
  }

  predicate AllDigits(s: string) {
    forall i :: 0 <= i < |s| ==> IsDigit(s[i])
  }

  /** The number a string of digits stands for. */
  function DigitsValue(s: string): nat
    requires AllDigits(s)
  {
    if s == "" then 0 else 10 * DigitsValue(s[..|s| - 1]) + DigitValue(s[|s| - 1])
  }

  predicate Signed(s: string) {
    s != "" && (s[0] == '-' || s[0] == '+')
  }

  function Magnitude(s: string): string {
    if Signed(s) then s[1..] else s
  }

  /** Base 10 in 32 bits: an optional sign, at least one digit, and a value in range; None is an error. */
  function ParseInt(s: string): (r: Option<int>)
    ensures r.Some? ==> MIN_INT32 <= r.value <= MAX_INT32
  {
    var digits := Magnitude(s);
    if digits == "" || !AllDigits(digits) then None
    else
      var value: int := DigitsValue(digits);
      var n := if s[0] == '-' then -value else value;
      if MIN_INT32 <= n <= MAX_INT32 then Some(n) else None
  }

  function FormatNat(n: nat): string {
    if n < 10 then [DigitChar(n)] else FormatNat(n / 10) + [DigitChar(n % 10)]
  }

  function DigitChar(d: nat): char
    requires d < 10
  {
    ('0' as nat + d) as char
  }

  function FormatInt(n: int): string {
    if n < 0 then "-" + FormatNat(-n) else FormatNat(n)
  }

  lemma {:induction false} FormatNatParses(n: nat)
    ensures FormatNat(n) != "" && AllDigits(FormatNat(n)) && DigitsValue(FormatNat(n)) == n
    decreases n
  {
    if n >= 10 {
      FormatNatParses(n / 10);
      assert FormatNat(n)[..|FormatNat(n)| - 1] == FormatNat(n / 10);
    } else {
      assert FormatNat(n)[..0] == "";
    }
  }

  /** Every 32-bit integer survives being written and read. */
  lemma FormatParses(n: int)
    ensures ParseInt(FormatInt(n)) == if MIN_INT32 <= n <= MAX_INT32 then Some(n) else None
  {
    if n < 0 {
      FormatNatParses(-n);
      assert FormatInt(n)[1..] == FormatNat(-n);
    } else {
      FormatNatParses(n);
      assert IsDigit(FormatNat(n)[0]);
    }
  }

  /** Narrowing to 32 bits with wrap-around. */
  function ToInt32(n: int): int {
    (n - MIN_INT32) % 0x1_0000_0000 + MIN_INT32
  }

  /** What texts stand for: the most significant digit first, one sign at most, nothing else. */
  lemma Readings()
    ensures forall d: nat :: d < 10 ==> DigitChar(d) == "0123456789"[d] && ParseInt(["0123456789"[d]]) == Some(d)
    ensures ParseInt("120") == Some(120) && ParseInt("-12") == Some(-12) && ParseInt("+12") == Some(12)
    ensures ParseInt("") == ParseInt("-") == ParseInt("1x") == ParseInt("--1") == None
  {
    forall d: nat | d < 10 ensures DigitChar(d) == "0123456789"[d] && ParseInt(["0123456789"[d]]) == Some(d) {
      assert DigitsValue(["0123456789"[d]]) == 10 * DigitsValue("") + d by { assert ["0123456789"[d]][..0] == ""; }
    }
    assert "120"[..2] == "12" && "12"[..1] == "1" && "1"[..0] == "";
    assert DigitsValue("1") == 1 && DigitsValue("12") == 12 && DigitsValue("120") == 120;
    assert "-12"[1..] == "12" && "+12"[1..] == "12" && "--1"[1..] == "-1";
    assert !IsDigit("1x"[1]) && !IsDigit("-1"[0]);
  }
}
