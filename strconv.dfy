/**
 * The parts of Go's strconv package that argument coercion relies on:
 * base-10 integer parsing (Atoi, i.e. ParseInt(s, 10, 64) on a 64-bit
 * platform), boolean parsing, and their formatting inverses.
 */
module Strconv {
  import opened Wrappers

  /** The two error kinds a *strconv.NumError can carry. */
  datatype NumError = ErrSyntax | ErrRange

  const MaxUint64: nat := 0xFFFF_FFFF_FFFF_FFFF
  /** Bounds of Go's `int`, taken to be 64 bits wide. */
  const MinInt: int := -0x8000_0000_0000_0000
  const MaxInt: int := 0x7FFF_FFFF_FFFF_FFFF

  predicate IsDigit(c: char) { '0' <= c <= '9' }

  function DigitValue(c: char): (d: nat)
    requires IsDigit(c)
    ensures d < 10
  {
    c as int - '0' as int
  }

  function DigitChar(d: nat): (c: char)
    requires d < 10
    ensures IsDigit(c) && DigitValue(c) == d
  {
    ('0' as int + d) as char
  }

  predicate AllDigits(s: string) { forall i :: 0 <= i < |s| ==> IsDigit(s[i]) }

  /** The number a string of decimal digits denotes, most significant digit first. */
  function DigitsValue(s: string): nat
    requires AllDigits(s)
  {
    if s == [] then 0 else DigitsValue(s[..|s| - 1]) * 10 + DigitValue(s[|s| - 1])
  }

  /** The text after its leading sign, if it has one. */
  function Unsigned(s: string): string {
    if |s| > 0 && (s[0] == '+' || s[0] == '-') then s[1..] else s
  }

  predicate IsNegative(s: string) { |s| > 0 && s[0] == '-' }

  /** The decimal integer grammar: an optional sign followed by one or more digits. */
  predicate IsIntSyntax(s: string) { |Unsigned(s)| > 0 && AllDigits(Unsigned(s)) }

  /** The integer a well-formed decimal text denotes. */
  function SignedValue(s: string): int
    requires IsIntSyntax(s)
  {
    if IsNegative(s) then -(DigitsValue(Unsigned(s)) as int) else DigitsValue(Unsigned(s))
  }

  /**
   * The digit loop of ParseUint(s, 10, 64), from position i with accumulator n.
   * A digit is checked before overflow is; overflow is caught either by the
   * cutoff test (n * 10 would not fit) or by the uint64 sum wrapping around.
   */
  function ParseUintFrom(s: string, i: nat, n: nat): Result<nat, NumError>
    requires i <= |s| && n <= MaxUint64
    decreases |s| - i
  {
    if i == |s| then Success(n)
    else if !IsDigit(s[i]) then Failure(ErrSyntax)
    else if n >= MaxUint64 / 10 + 1 then Failure(ErrRange)
    else
      var n1 := n * 10 + DigitValue(s[i]);
      if n1 > MaxUint64 then Failure(ErrRange)
      else ParseUintFrom(s, i + 1, n1)
  }

  function ParseUint(s: string): Result<nat, NumError> {
    if s == "" then Failure(ErrSyntax) else ParseUintFrom(s, 0, 0)
  }

  /**
   * Atoi on a 64-bit platform: strip one sign, parse the magnitude as a
   * uint64, then reject magnitudes outside the signed range (a magnitude
   * range error stays a range error).
   */
  function Atoi(s: string): Result<int, NumError> {
    if s == "" then Failure(ErrSyntax)
    else
      var neg := s[0] == '-';
      match ParseUint(Unsigned(s))
      case Failure(e) => Failure(e)
      case Success(un) =>
        if !neg && un >= 0x8000_0000_0000_0000 then Failure(ErrRange)
        else if neg && un > 0x8000_0000_0000_0000 then Failure(ErrRange)
        else Success(if neg then -(un as int) else un as int)
  }

  /** Itoa's digits for a natural number. */
  function FormatNat(n: nat): string
  {
    if n < 10 then [DigitChar(n)] else FormatNat(n / 10) + [DigitChar(n % 10)]
  }

  /** Itoa: the shortest decimal text of x, with a minus sign when negative. */
  function Itoa(x: int): string {
    if x < 0 then "-" + FormatNat(-x) else FormatNat(x)
  }

  /** ParseBool: the accepted spellings of true and false; everything else is a syntax error. */
  function ParseBool(s: string): Result<bool, NumError> {
    if s == "1" || s == "t" || s == "T" || s == "TRUE" || s == "true" || s == "True" then Success(true)
    else if s == "0" || s == "f" || s == "F" || s == "FALSE" || s == "false" || s == "False" then Success(false)
    else Failure(ErrSyntax)
  }

  /** FormatBool: "true" or "false". */
  function FormatBool(b: bool): string {
    if b then "true" else "false"
  }

  // ---------------------------------------------------------------------
  // Properties of the digit loop

  lemma {:induction false} DigitsValueStep(s: string, i: nat)
    requires AllDigits(s) && i < |s|
    ensures DigitsValue(s[..i + 1]) == DigitsValue(s[..i]) * 10 + DigitValue(s[i])
  {
    assert s[..i + 1][..i] == s[..i];
  }

  /** A longer run of digits never denotes a smaller number. */
  lemma {:induction false} DigitsValueMonotone(s: string, i: nat, j: nat)
    requires AllDigits(s) && i <= j <= |s|
    ensures DigitsValue(s[..i]) <= DigitsValue(s[..j])
    decreases j - i
  {
    if i < j {
      DigitsValueStep(s, i);
      DigitsValueMonotone(s, i + 1, j);
    }
  }

  /**
   * On an all-digit text the loop, started with the value of the digits
   * already read, yields the value of the whole text, or a range error
   * exactly when that value does not fit in 64 bits.
   */
  lemma {:induction false} ParseUintFromDigits(s: string, i: nat)
    requires AllDigits(s) && i <= |s| && DigitsValue(s[..i]) <= MaxUint64
    ensures ParseUintFrom(s, i, DigitsValue(s[..i])) ==
            if DigitsValue(s) <= MaxUint64 then Success(DigitsValue(s)) else Failure(ErrRange)
    decreases |s| - i
  {
    assert s[..|s|] == s;
    if i < |s| {
      var n := DigitsValue(s[..i]);
      DigitsValueStep(s, i);
      DigitsValueMonotone(s, i + 1, |s|);
      if n < MaxUint64 / 10 + 1 && n * 10 + DigitValue(s[i]) <= MaxUint64 {
        ParseUintFromDigits(s, i + 1);
      }
    }
  }

  /** The loop fails on any text with a non-digit in the part still to be read. */
  lemma {:induction false} ParseUintFromNonDigits(s: string, i: nat, n: nat)
    requires i <= |s| && n <= MaxUint64
    requires !AllDigits(s[i..])
    ensures ParseUintFrom(s, i, n).Failure?
    decreases |s| - i
  {
    if IsDigit(s[i]) && n < MaxUint64 / 10 + 1 && n * 10 + DigitValue(s[i]) <= MaxUint64 {
      assert s[i + 1..] == s[i..][1..];
      ParseUintFromNonDigits(s, i + 1, n * 10 + DigitValue(s[i]));
    }
  }

  /** ParseUint succeeds exactly on non-empty digit strings whose value fits in 64 bits. */
  lemma ParseUintSpec(s: string)
    ensures ParseUint(s).Success? <==> |s| > 0 && AllDigits(s) && DigitsValue(s) <= MaxUint64
    ensures ParseUint(s).Success? ==> ParseUint(s).value == DigitsValue(s)
    ensures |s| > 0 && AllDigits(s) && DigitsValue(s) > MaxUint64 ==> ParseUint(s) == Failure(ErrRange)
  {
    if s != "" {
      assert s[0..] == s;
      if AllDigits(s) {
        assert s[..0] == [];
        ParseUintFromDigits(s, 0);
      } else {
        ParseUintFromNonDigits(s, 0, 0);
      }
    }
  }

  /**
   * Atoi succeeds exactly on sign-and-digits texts whose value lies in the
   * range of a 64-bit int, and then yields that value; a well-formed text out
   * of range is a range error.
   */
  lemma AtoiSpec(s: string)
    ensures Atoi(s).Success? <==> IsIntSyntax(s) && MinInt <= SignedValue(s) <= MaxInt
    ensures Atoi(s).Success? ==> Atoi(s).value == SignedValue(s)
    ensures IsIntSyntax(s) && !(MinInt <= SignedValue(s) <= MaxInt) ==> Atoi(s) == Failure(ErrRange)
  {
    ParseUintSpec(Unsigned(s));
  }

  lemma {:induction false} FormatNatDigits(n: nat)
    ensures |FormatNat(n)| > 0 && AllDigits(FormatNat(n))
    ensures DigitsValue(FormatNat(n)) == n
  {
    var t := FormatNat(n);
    if n >= 10 {
      FormatNatDigits(n / 10);
      assert t[..|t| - 1] == FormatNat(n / 10);
    }
  }

  /** Round trip: every int's decimal text parses back to that int. */
  lemma AtoiItoa(x: int)
    requires MinInt <= x <= MaxInt
    ensures Atoi(Itoa(x)) == Success(x)
  {
    var m: nat := if x < 0 then -x else x;
    FormatNatDigits(m);
    var t := Itoa(x);
    assert Unsigned(t) == FormatNat(m) by {
      if x < 0 {
        assert t[1..] == FormatNat(m);
      } else {
        assert IsDigit(t[0]);
      }
    }
    AtoiSpec(t);
  }

  /** Round trip: FormatBool's text parses back to the same truth value. */
  lemma ParseBoolFormatBool(b: bool)
    ensures ParseBool(FormatBool(b)) == Success(b)
  {
  }
}
