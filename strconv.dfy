/**
 * The parts of Go's `strconv` package and of Go's 64-bit `int` that the
 * marketplace code depends on: `strconv.Atoi` (decimal text to `int`),
 * the `%d` rendering of an `int`, and two's-complement wrap-around.
 */
module Strconv {
  import opened Wrappers

  const MinInt64: int := -0x8000_0000_0000_0000
  const MaxInt64: int := 0x7FFF_FFFF_FFFF_FFFF
  const TwoTo64: int := 0x1_0000_0000_0000_0000

  predicate InInt64(x: int) {
    MinInt64 <= x <= MaxInt64
  }

  /** Go `int` arithmetic on a 64-bit platform: the result is taken modulo 2^64. */
  function Wrap64(x: int): (r: int)
    ensures InInt64(r)
    ensures (r - x) % TwoTo64 == 0
    ensures InInt64(x) ==> r == x
  {
    (x - MinInt64) % TwoTo64 + MinInt64
  }

  predicate IsDigit(c: char) {
    '0' <= c <= '9'
  }

  predicate AllDigits(s: string) {
    forall i :: 0 <= i < |s| ==> IsDigit(s[i])
  }

  function DigitValue(c: char): nat
    requires IsDigit(c)
  {
    c as int - '0' as int
  }

  function DigitChar(d: nat): char
    requires d < 10
  {
    ('0' as int + d) as char
  }

  /** The value of a string of decimal digits, most significant digit first. */
  function DigitsValue(s: string): nat
    requires AllDigits(s)
  {
    if s == [] then 0 else 10 * DigitsValue(s[..|s| - 1]) + DigitValue(s[|s| - 1])
  }

  datatype NumErrorKind = ErrSyntax | ErrRange

  /** Go's `*strconv.NumError`: the failing function, the input and the reason. */
  datatype NumError = NumError(func: string, num: string, err: NumErrorKind)

  /** The text after an optional leading sign. */
  function Unsigned(s: string): string {
    if |s| > 0 && (s[0] == '+' || s[0] == '-') then s[1..] else s
  }

  /** Text that `Atoi` reads as a number: an optional sign and at least one digit. */
  predicate IsDecimal(s: string) {
    Unsigned(s) != [] && AllDigits(Unsigned(s))
  }

  const MaxUint64: int := 0xFFFF_FFFF_FFFF_FFFF

  /** The longest run of digits at the start of `s`. */
  function LeadingDigits(s: string): string {
    if s == [] || !IsDigit(s[0]) then [] else [s[0]] + LeadingDigits(s[1..])
  }

  /**
   * Whether the digits after the sign already exceed 2^64-1 before the first
   * non-digit: `ParseUint`, which `Atoi` calls for texts of 19 bytes or more,
   * reports a range error at the first digit that overflows, without looking
   * at what follows.
   */
  predicate LeadingDigitsOverflow(s: string) {
    var d := LeadingDigits(Unsigned(s));
    AllDigits(d) && DigitsValue(d) > MaxUint64
  }

  /**
   * `strconv.Atoi`: an optional `+` or `-`, then one or more ASCII digits,
   * whose value must fit in a 64-bit `int`. Digits that overflow 2^64-1
   * before any other character give a range error; otherwise text that is
   * not decimal (the empty string included) is a syntax error, and a decimal
   * value outside the 64-bit range is a range error.
   */
  function Atoi(s: string): (r: Result<int, NumError>)
    ensures r.Ok? <==> IsDecimal(s) && InInt64(SignedValue(s))
    ensures r.Ok? ==> r.value == SignedValue(s)
    ensures r.Err? ==> r.error.func == "Atoi" && r.error.num == s
    ensures r.Err? ==> (r.error.err == ErrSyntax <==> !IsDecimal(s) && !LeadingDigitsOverflow(s))
  {
    var digits := Unsigned(s);
    if LeadingDigitsOverflow(s) then
      LeadingDigitsOverflowNotInt64(s);
      Err(NumError("Atoi", s, ErrRange))
    else if digits == [] || !AllDigits(digits) then
      Err(NumError("Atoi", s, ErrSyntax))
    else
      var v := SignedValue(s);
      if !InInt64(v) then Err(NumError("Atoi", s, ErrRange)) else Ok(v)
  }

  /** `LeadingDigits` is the longest prefix made of digits only. */
  lemma {:induction false} LeadingDigitsMaximal(s: string)
    ensures var d := LeadingDigits(s);
            AllDigits(d) && d <= s && (|d| < |s| ==> !IsDigit(s[|d|]))
  {
    if s != [] && IsDigit(s[0]) {
      LeadingDigitsMaximal(s[1..]);
      var d, e := LeadingDigits(s), LeadingDigits(s[1..]);
      assert d == [s[0]] + e;
      assert forall i :: 1 <= i < |d| ==> d[i] == e[i - 1];
    }
  }

  lemma {:induction false} LeadingDigitsOfDigits(s: string)
    requires AllDigits(s)
    ensures LeadingDigits(s) == s
  {
    if s != [] {
      assert AllDigits(s[1..]);
      LeadingDigitsOfDigits(s[1..]);
    }
  }

  /** Decimal text whose digits overflow 2^64-1 does not denote a 64-bit value. */
  lemma LeadingDigitsOverflowNotInt64(s: string)
    requires LeadingDigitsOverflow(s)
    ensures IsDecimal(s) ==> !InInt64(SignedValue(s))
  {
    if IsDecimal(s) {
      LeadingDigitsOfDigits(Unsigned(s));
    }
  }

  /** The number that decimal text denotes, before the range check. */
  function SignedValue(s: string): int
    requires IsDecimal(s)
  {
    var magnitude: int := DigitsValue(Unsigned(s));
    if s[0] == '-' then -magnitude else magnitude
  }

  /** Decimal digits of a natural number, without leading zeros. */
  function FormatNat(n: nat): string {
    if n < 10 then [DigitChar(n)] else FormatNat(n / 10) + [DigitChar(n % 10)]
  }

  /** `%d` (and `strconv.Itoa`): a minus sign for negative values, then the digits. */
  function FormatInt(n: int): string {
    if n < 0 then "-" + FormatNat(-n) else FormatNat(n)
  }

  /** `FormatNat` writes one or more digits, with no leading zero, denoting `n`. */
  lemma {:induction false} FormatNatDigits(n: nat)
    ensures FormatNat(n) != [] && AllDigits(FormatNat(n))
    ensures FormatNat(n)[0] == '0' ==> n == 0
    ensures DigitsValue(FormatNat(n)) == n
  {
    var s := FormatNat(n);
    if n >= 10 {
      FormatNatDigits(n / 10);
      assert s[..|s| - 1] == FormatNat(n / 10);
      assert s[0] == FormatNat(n / 10)[0];
    }
  }

  /** Every value of a 64-bit `int` survives a round trip through `%d` and `Atoi`. */
  lemma AtoiFormatInt(n: int)
    requires InInt64(n)
    ensures Atoi(FormatInt(n)) == Ok(n)
  {
    var s := FormatInt(n);
    if n < 0 {
      FormatNatDigits(-n);
      assert Unsigned(s) == FormatNat(-n);
    } else {
      FormatNatDigits(n);
      assert Unsigned(s) == FormatNat(n);
    }
    assert IsDecimal(s) && SignedValue(s) == n;
  }

  lemma {:induction false} LeadingDigitsAppend(d: string, t: string)
    requires AllDigits(d)
    ensures LeadingDigits(d + t) == d + LeadingDigits(t)
  {
    if d == [] {
      assert d + t == t;
    } else {
      var dt, rest := d + t, d[1..];
      assert dt[0] == d[0] && IsDigit(d[0]);
      assert dt[1..] == rest + t;
      assert AllDigits(rest);
      LeadingDigitsAppend(rest, t);
      calc {
        LeadingDigits(dt);
        [d[0]] + LeadingDigits(rest + t);
        [d[0]] + (rest + LeadingDigits(t));
        { assert [d[0]] + rest == d; }
        d + LeadingDigits(t);
      }
    }
  }

  /** Appending digits never lowers the value. */
  lemma {:induction false} DigitsValueGrows(d: string, e: string)
    requires AllDigits(d) && AllDigits(e)
    ensures AllDigits(d + e) && DigitsValue(d + e) >= DigitsValue(d)
  {
    if e != [] {
      var e' := e[..|e| - 1];
      assert (d + e)[..|d + e| - 1] == d + e';
      assert AllDigits(e');
      DigitsValueGrows(d, e');
    } else {
      assert d + e == d;
    }
  }

  /**
   * Digits denoting more than 2^64-1 give a range error whatever follows
   * them: the overflow is reported before a later non-digit is seen.
   */
  lemma AtoiOverflowBeforeSyntax(n: nat, t: string)
    requires n > MaxUint64
    ensures Atoi(FormatNat(n) + t) == Err(NumError("Atoi", FormatNat(n) + t, ErrRange))
  {
    var d := FormatNat(n);
    FormatNatDigits(n);
    assert Unsigned(d + t) == d + t by {
      assert (d + t)[0] == d[0];
    }
    LeadingDigitsAppend(d, t);
    LeadingDigitsMaximal(t);
    DigitsValueGrows(d, LeadingDigits(t));
  }

  /** Leading zeros are accepted: `Atoi` does not demand canonical text. */
  lemma AtoiAcceptsLeadingZeros()
    ensures Atoi("007") == Ok(7)
  {
    var s := "007";
    assert Unsigned(s) == s;
    assert AllDigits(s);
    LeadingDigitsOfDigits(s);
    assert s[..2] == "00" && "00"[..1] == "0" && "0"[..0] == [];
    assert DigitsValue("0") == 0 && DigitsValue("00") == 0;
    assert DigitsValue(s) == 7;
    assert SignedValue(s) == 7;
  }

  /** Either sign is accepted on zero, and both give 0. */
  lemma AtoiAcceptsSignedZero()
    ensures Atoi("+0") == Ok(0) && Atoi("-0") == Ok(0)
  {
    assert Unsigned("+0") == "0" && Unsigned("-0") == "0";
    assert AllDigits("0");
    LeadingDigitsOfDigits("0");
    assert "0"[..0] == [];
    assert DigitsValue("0") == 0;
  }
}
