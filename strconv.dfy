/**
 * Base-10 integer and boolean parsing as Go's strconv package performs it
 * for the field setters: `ParseUint(s, 10, bits)`, `ParseInt(s, 10, bits)`
 * and `ParseBool(s)`. The decimal renderings `FormatUint`/`FormatInt` are
 * the partners the round-trip lemmas use.
 */
module Strconv {
  import opened Wrappers

  /** `strconv.ErrSyntax` and `strconv.ErrRange`. */
  datatype NumError = ErrSyntax | ErrRange

  function Pow2(n: nat): (r: nat)
    ensures r >= 1
  {
    if n == 0 then 1 else 2 * Pow2(n - 1)
  }

  predicate IsDigit(c: char)
  {
    '0' <= c <= '9'
  }

  function DigitVal(c: char): (d: nat)
    requires IsDigit(c)
    ensures d < 10
  {
    c as int - '0' as int
  }

  function DigitChar(d: nat): (c: char)
    requires d < 10
    ensures IsDigit(c) && DigitVal(c) == d
  {
    ('0' as int + d) as char
  }

  predicate AllDigits(s: string)
  {
    forall i :: 0 <= i < |s| ==> IsDigit(s[i])
  }

  /** The number a string of decimal digits denotes, read most significant digit first. */
  function Value(s: string): nat
    requires AllDigits(s)
  {
    if |s| == 0 then 0 else 10 * Value(s[..|s| - 1]) + DigitVal(s[|s| - 1])
  }

  /**
   * The digit loop of ParseUint from position `i` with the value `n` read so
   * far: a non-digit is a syntax error, and a value beyond `maxVal` is a
   * range error as soon as the digit that makes it so is read.
   */
  function Scan(s: string, i: nat, n: nat, maxVal: nat): (r: Result<nat, NumError>)
    requires i <= |s|
    decreases |s| - i
    ensures r.Success? && n <= maxVal ==> n <= r.value <= maxVal
  {
    if i == |s| then Success(n)
    else if !IsDigit(s[i]) then Failure(ErrSyntax)
    else if n * 10 + DigitVal(s[i]) > maxVal then Failure(ErrRange)
    else Scan(s, i + 1, n * 10 + DigitVal(s[i]), maxVal)
  }

  /** `strconv.ParseUint(s, 10, bitSize)`: no sign, no underscores, at most `2^bitSize - 1`. */
  function ParseUint(s: string, bitSize: nat): (r: Result<nat, NumError>)
  {
    if s == "" then Failure(ErrSyntax) else Scan(s, 0, 0, Pow2(bitSize) - 1)
  }

  /**
   * `strconv.ParseInt(s, 10, bitSize)`: an optional sign, then the digits
   * through ParseUint with the same width, then the signed range check. A
   * range error from ParseUint stands for the value `2^bitSize - 1`, as in
   * the library.
   */
  function ParseInt(s: string, bitSize: nat): (r: Result<int, NumError>)
    requires bitSize > 0
  {
    if s == "" then Failure(ErrSyntax)
    else
      var neg := s[0] == '-';
      var body := if s[0] == '+' || s[0] == '-' then s[1..] else s;
      var un := ParseUint(body, bitSize);
      if un.Failure? && un.error == ErrSyntax then Failure(ErrSyntax)
      else
        var u := if un.Success? then un.value else Pow2(bitSize) - 1;
        var cutoff := Pow2(bitSize - 1);
        if !neg && u >= cutoff then Failure(ErrRange)
        else if neg && u > cutoff then Failure(ErrRange)
        else Success(if neg then -u else u)
  }

  /** An accepted value lies in the signed range of the width. */
  lemma ParseIntRange(s: string, bitSize: nat)
    requires bitSize > 0
    ensures ParseInt(s, bitSize).Success? ==> -(Pow2(bitSize - 1) as int) <= ParseInt(s, bitSize).value < Pow2(bitSize - 1)
  {
  }

  /** `strconv.ParseBool(s)`. */
  function ParseBool(s: string): (r: Result<bool, NumError>)
    ensures r.Success? <==> s in {"1", "t", "T", "TRUE", "true", "True", "0", "f", "F", "FALSE", "false", "False"}
    ensures r.Success? && r.value <==> s in {"1", "t", "T", "TRUE", "true", "True"}
    ensures r.Failure? ==> r.error == ErrSyntax
  {
    if s in {"1", "t", "T", "TRUE", "true", "True"} then Success(true)
    else if s in {"0", "f", "F", "FALSE", "false", "False"} then Success(false)
    else Failure(ErrSyntax)
  }

  /** Decimal rendering, without leading zeros. */
  function FormatUint(n: nat): (s: string)
    ensures |s| > 0 && AllDigits(s)
  {
    if n < 10 then [DigitChar(n)] else FormatUint(n / 10) + [DigitChar(n % 10)]
  }

  function FormatInt(i: int): (s: string)
    ensures |s| > 0
  {
    if i < 0 then "-" + FormatUint(-i) else FormatUint(i)
  }

  lemma {:induction false} ValueFormat(n: nat)
    ensures Value(FormatUint(n)) == n
  {
    if n >= 10 {
      ValueFormat(n / 10);
      var s := FormatUint(n);
      assert s[..|s| - 1] == FormatUint(n / 10);
    }
  }

  lemma {:induction false} ValueMonotone(s: string, j: nat)
    requires AllDigits(s) && j <= |s|
    ensures Value(s[..j]) <= Value(s)
    decreases |s| - j
  {
    if j < |s| {
      ValueMonotone(s, j + 1);
      assert s[..j + 1][..j] == s[..j];
    } else {
      assert s[..j] == s;
    }
  }

  /** The digit loop run from any prefix of a digit string lands on the value of the whole string, or on a range error. */
  lemma {:induction false} ScanDigits(s: string, i: nat, maxVal: nat)
    requires AllDigits(s) && i <= |s| && Value(s[..i]) <= maxVal
    ensures Scan(s, i, Value(s[..i]), maxVal)
      == if Value(s) <= maxVal then Success(Value(s)) else Failure(ErrRange)
    decreases |s| - i
  {
    if i == |s| {
      assert s[..i] == s;
    } else {
      assert s[..i + 1][..i] == s[..i];
      var next := Value(s[..i]) * 10 + DigitVal(s[i]);
      assert next == Value(s[..i + 1]);
      if next > maxVal {
        ValueMonotone(s, i + 1);
      } else {
        ScanDigits(s, i + 1, maxVal);
      }
    }
  }

  /** The digit loop stops on a syntax or range error whenever a non-digit is present. */
  lemma {:induction false} ScanNonDigit(s: string, i: nat, n: nat, maxVal: nat)
    requires i <= |s|
    requires exists j :: i <= j < |s| && !IsDigit(s[j])
    ensures Scan(s, i, n, maxVal).Failure?
    decreases |s| - i
  {
    if IsDigit(s[i]) && n * 10 + DigitVal(s[i]) <= maxVal {
      ScanNonDigit(s, i + 1, n * 10 + DigitVal(s[i]), maxVal);
    }
  }

  /**
   * ParseUint accepts exactly the non-empty digit strings whose value fits
   * in `bitSize` bits, and then returns that value.
   */
  lemma ParseUintSpec(s: string, bitSize: nat)
    ensures ParseUint(s, bitSize).Success?
      <==> s != "" && AllDigits(s) && Value(s) < Pow2(bitSize)
    ensures ParseUint(s, bitSize).Success? ==> ParseUint(s, bitSize).value == Value(s)
    ensures s != "" && AllDigits(s) && Value(s) >= Pow2(bitSize)
      ==> ParseUint(s, bitSize) == Failure(ErrRange)
  {
    if s != "" {
      if AllDigits(s) {
        assert s[..0] == "";
        ScanDigits(s, 0, Pow2(bitSize) - 1);
      } else {
        ScanNonDigit(s, 0, 0, Pow2(bitSize) - 1);
      }
    }
  }

  /** Every value that fits in the width survives rendering and parsing. */
  lemma ParseUintFormat(n: nat, bitSize: nat)
    requires n < Pow2(bitSize)
    ensures ParseUint(FormatUint(n), bitSize) == Success(n)
  {
    ValueFormat(n);
    ParseUintSpec(FormatUint(n), bitSize);
  }

  /** Every value in the signed range survives rendering and parsing. */
  lemma ParseIntFormat(i: int, bitSize: nat)
    requires bitSize >= 1
    requires -(Pow2(bitSize - 1) as int) <= i < Pow2(bitSize - 1)
    ensures ParseInt(FormatInt(i), bitSize) == Success(i)
  {
    var s := FormatInt(i);
    if i < 0 {
      assert s[0] == '-' && s[1..] == FormatUint(-i);
      ParseUintFormat(-i, bitSize);
    } else {
      var t := FormatUint(i);
      assert IsDigit(t[0]);
      ParseUintFormat(i, bitSize);
    }
  }

  /** The canonical renderings of both truth values parse back. */
  lemma ParseBoolFormat(b: bool)
    ensures ParseBool(if b then "true" else "false") == Success(b)
  {
  }
}
