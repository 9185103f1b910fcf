/** Rust's `i32`, decimal digit strings, and `i32` division. */
module Numbers {

  const MinI32: int := -0x8000_0000
  const MaxI32: int := 0x7fff_ffff

  predicate InI32(x: int) {
    MinI32 <= x <= MaxI32
  }

  type i32 = x: int | InI32(x)

  predicate IsAsciiDigit(c: char) {
    '0' <= c <= '9'
  }

  predicate AllDigits(s: string) {
    forall i :: 0 <= i < |s| ==> IsAsciiDigit(s[i])
  }

  function DigitValue(c: char): (d: nat)
    requires IsAsciiDigit(c)
    ensures d < 10 && c == ('0' as int + d) as char
  {
    c as int - '0' as int
  }

  function DigitChar(d: nat): (c: char)
    requires d < 10
    ensures IsAsciiDigit(c) && DigitValue(c) == d
  {
    ('0' as int + d) as char
  }

  function Pow10(k: nat): (r: nat)
    ensures r >= 1
  {
    if k == 0 then 1 else 10 * Pow10(k - 1)
  }

  /** The value of a string of decimal digits, as `str::parse` computes it before the range
      check: below ten to the power of its length, and unchanged by a leading zero. */
  function DigitsValue(s: string): (r: nat)
    requires AllDigits(s)
    ensures r < Pow10(|s|)
    ensures s != [] && s[0] == '0' ==> r == DigitsValue(s[1..])
  {
    if s == [] then 0
    else
      var init := s[..|s| - 1];
      assert |s| >= 2 ==> s[1..][..|s| - 2] == init[1..];
      DigitsValue(init) * 10 + DigitValue(s[|s| - 1])
  }

  /** The decimal form of `n`, as Rust's `{}` formats an unsigned number; it reads back as `n`. */
  function DecimalString(n: nat): (r: string)
    ensures |r| >= 1 && AllDigits(r)
    ensures DigitsValue(r) == n
    ensures r[0] == '0' ==> r == "0"
  {
    if n < 10 then [DigitChar(n)]
    else
      var prefix := DecimalString(n / 10);
      assert (prefix + [DigitChar(n % 10)])[..|prefix|] == prefix;
      prefix + [DigitChar(n % 10)]
  }

  function Abs(x: int): nat {
    if x < 0 then -x else x
  }

  function NatQuotient(n: nat, d: nat): nat
    requires d > 0
  {
    n / d
  }

  /** Rust's `/` on integers: the quotient truncated toward zero, so its magnitude is the
      floor of the magnitudes and its sign is the product of the operands' signs. */
  function TruncDiv(a: int, b: int): (q: int)
    requires b != 0
    ensures Abs(q) == Abs(a) / Abs(b)
    ensures q != 0 ==> (q < 0 <==> (a < 0) != (b < 0))
  {
    var magnitude: int := NatQuotient(Abs(a), Abs(b));
    if (a < 0) == (b < 0) then magnitude else -magnitude
  }

  lemma {:induction false} DigitsValueAppend(s: string, c: char)
    requires AllDigits(s) && IsAsciiDigit(c)
    ensures AllDigits(s + [c]) && DigitsValue(s + [c]) == DigitsValue(s) * 10 + DigitValue(c)
  {
    assert (s + [c])[..|s|] == s;
  }
}
