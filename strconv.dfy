/**
 * The parts of Go's `strconv` and `fmt` packages that the configuration code relies on,
 * on a 64-bit platform: `strconv.Atoi` (decimal text to `int`), the `%d` verb (`int` to
 * decimal text), and the wrap-around of signed 64-bit multiplication.
 */
module Strconv {
  import opened Wrappers

  /** Bounds of Go's `int` (and `int64`) on a 64-bit platform. */
  const MinInt64: int := -0x8000_0000_0000_0000
  const MaxInt64: int := 0x7fff_ffff_ffff_ffff
  const TwoTo64: int := 0x1_0000_0000_0000_0000

  predicate InInt64(n: int) {
    MinInt64 <= n <= MaxInt64
  }

  predicate IsDigit(c: char) {
    '0' <= c <= '9'
  }

  predicate AllDigits(s: string) {
    forall i :: 0 <= i < |s| ==> IsDigit(s[i])
  }

  function DigitValue(c: char): (d: nat)
    requires IsDigit(c)
    ensures d < 10
  {
    (c as int) - ('0' as int)
  }

  function DigitChar(d: nat): (c: char)
    requires d < 10
    ensures IsDigit(c) && DigitValue(c) == d
  {
    (('0' as int) + d) as char
  }

  /** The value of a string of decimal digits, most significant first. */
  function DigitsValue(s: string): nat
    requires AllDigits(s)
  {
    if |s| == 0 then 0 else DigitsValue(s[..|s| - 1]) * 10 + DigitValue(s[|s| - 1])
  }

  /** The shortest decimal digit string of `n` (no leading zeros except "0" itself). */
  function NatDigits(n: nat): (s: string)
    ensures |s| > 0 && AllDigits(s)
    ensures |s| > 1 ==> s[0] != '0'
  {
    if n < 10 then [DigitChar(n)] else NatDigits(n / 10) + [DigitChar(n % 10)]
  }

  /**
   * The syntax accepted by `strconv.Atoi` in base 10: an optional `+` or `-`, then one or
   * more ASCII digits. Underscores, spaces and other characters are rejected. The value is
   * returned unbounded; `Atoi` adds the range check.
   */
  function ParseSigned(s: string): (r: Option<int>)
    ensures r.Some? <==>
      (|s| > 0 && (s[0] == '+' || s[0] == '-') && |s| > 1 && AllDigits(s[1..])) || (|s| > 0 && AllDigits(s))
    ensures r.Some? && |s| > 0 && s[0] == '-' ==> r.value <= 0
    ensures r.Some? && |s| > 0 && s[0] != '-' ==> r.value >= 0
  {
    if |s| == 0 then None
    else
      var neg := s[0] == '-';
      var digits := if s[0] == '+' || s[0] == '-' then s[1..] else s;
      if |digits| == 0 || !AllDigits(digits) then None
      else
        var magnitude: int := DigitsValue(digits);
        Some(if neg then -magnitude else magnitude)
  }

  /**
   * `strconv.Atoi`: the text parses as a signed decimal and its value fits a 64-bit `int`;
   * otherwise the call returns an error, modelled as `None`.
   */
  function Atoi(s: string): (r: Option<int>)
    ensures r.Some? <==> ParseSigned(s).Some? && InInt64(ParseSigned(s).value)
    ensures r.Some? ==> r.value == ParseSigned(s).value
  {
    match ParseSigned(s)
    case None => None
    case Some(n) => if InInt64(n) then Some(n) else None
  }

  /** `strconv.Itoa` and the `%d` verb of `fmt`: a leading `-` for negatives, then `NatDigits`. */
  function Itoa(n: int): (s: string)
    ensures |s| > 0 && (s[0] == '-' <==> n < 0)
    ensures AllDigits(if n < 0 then s[1..] else s)
    ensures |s| > 1 && n >= 0 ==> s[0] != '0'
  {
    if n < 0 then "-" + NatDigits(-n) else NatDigits(n)
  }

  lemma {:induction false} DigitsValueOfNatDigits(n: nat)
    ensures DigitsValue(NatDigits(n)) == n
  {
    if n >= 10 {
      var s := NatDigits(n);
      assert s[..|s| - 1] == NatDigits(n / 10);
      DigitsValueOfNatDigits(n / 10);
    }
  }

  /** Parsing the rendering of any integer gives the integer back. */
  lemma ParseSignedOfItoa(n: int)
    ensures ParseSigned(Itoa(n)) == Some(n)
  {
    var s := Itoa(n);
    if n < 0 {
      var digits := NatDigits(-n);
      assert s == "-" + digits && s[1..] == digits;
      DigitsValueOfNatDigits(-n);
    } else {
      assert s == NatDigits(n) && IsDigit(s[0]);
      DigitsValueOfNatDigits(n);
    }
  }

  /** `Atoi` inverts the `%d` rendering of every 64-bit `int`. */
  lemma AtoiOfItoa(n: int)
    requires InInt64(n)
    ensures Atoi(Itoa(n)) == Some(n)
  {
    ParseSignedOfItoa(n);
  }

  /** Distinct integers render differently. */
  lemma ItoaInjective(m: int, n: int)
    ensures Itoa(m) == Itoa(n) ==> m == n
  {
    ParseSignedOfItoa(m);
    ParseSignedOfItoa(n);
  }

  /** The rendering of an integer is a sign and digits only: in particular it has no comma. */
  lemma ItoaHasNoComma(n: int)
    ensures ',' !in Itoa(n)
  {
  }

  /**
   * Go's signed 64-bit arithmetic: the value congruent to `x` modulo 2^64 that lies in the
   * `int64` range.
   */
  function Int64Wrap(x: int): (r: int)
    ensures InInt64(r)
    ensures (x - r) % TwoTo64 == 0
    ensures InInt64(x) ==> r == x
  {
    var m := x % TwoTo64;
    if m > MaxInt64 then m - TwoTo64 else m
  }
}
