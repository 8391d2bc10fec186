/** Go's strconv.ParseUint(s, 10, 32), the only conversion the client applies to the
    RTT, loss and jitter strings. The library scans the bytes left to right,
    multiplying the running value by ten, and stops at the first byte that is not a
    decimal digit (a syntax error) or at the first digit that takes the value past
    2^32 - 1 (a range error). Which error is reported therefore depends on which of
    the two happens first. */
module Strconv {
  import opened Wrappers

  const MAX_UINT32: int := 0xFFFF_FFFF

  newtype uint32 = x: int | 0 <= x <= 0xFFFF_FFFF

  /** The two sentinel errors a *strconv.NumError wraps. */
  datatype NumErr = ErrSyntax | ErrRange

  /** A *strconv.NumError: the input text and the reason it was refused. */
  datatype NumError = NumError(num: string, err: NumErr)

  predicate IsDigit(c: char) {
    '0' <= c <= '9'
  }

  function Digit(c: char): (d: nat)
    requires IsDigit(c)
    ensures d <= 9
  {
    c as int - '0' as int
  }

  predicate AllDigits(s: string) {
    forall k :: 0 <= k < |s| ==> IsDigit(s[k])
  }

  /** The value of a string of decimal digits, most significant digit first. */
  function DecimalValue(s: string): nat
    requires AllDigits(s)
  {
    if s == [] then 0 else 10 * DecimalValue(s[..|s| - 1]) + Digit(s[|s| - 1])
  }

  /** The condition under which ParseUint(s, 10, 32) succeeds: a non-empty string of
      decimal digits (no sign, no underscore, no space) whose value fits in 32 bits. */
  predicate IsUint32Text(s: string) {
    |s| > 0 && AllDigits(s) && DecimalValue(s) <= MAX_UINT32
  }

  /** The number of decimal digits at the start of s. */
  function DigitPrefixLength(s: string): (n: nat)
    ensures n <= |s|
    ensures forall k :: 0 <= k < n ==> IsDigit(s[k])
    ensures n < |s| ==> !IsDigit(s[n])
  {
    if s == [] || !IsDigit(s[0]) then 0 else 1 + DigitPrefixLength(s[1..])
  }

  /** Reference definition of ParseUint(s, 10, 32), stated on the whole string rather
      than byte by byte: an empty string is a syntax error; a leading run of digits
      whose value exceeds 2^32 - 1 is a range error, whatever follows it; otherwise any
      non-digit is a syntax error. */
  function ParseSpec(s: string): Result<uint32, NumError> {
    var p := s[..DigitPrefixLength(s)];
    if s == [] then Err(NumError(s, ErrSyntax))
    else if DecimalValue(p) > MAX_UINT32 then Err(NumError(s, ErrRange))
    else if |p| < |s| then Err(NumError(s, ErrSyntax))
    else assert p == s; Ok(DecimalValue(s) as uint32)
  }

  /** The library's loop from position k on, with n the value of the digits s[..k]. */
  function Scan(s: string, k: nat, n: uint32): (r: Result<uint32, NumError>)
    requires k <= |s|
    ensures r.Ok? ==> forall j :: k <= j < |s| ==> IsDigit(s[j])
    ensures r.Err? ==> r.error.num == s
    decreases |s| - k
  {
    if k == |s| then Ok(n)
    else if !IsDigit(s[k]) then Err(NumError(s, ErrSyntax))
    else
      var n1 := 10 * n as int + Digit(s[k]);
      if n1 > MAX_UINT32 then Err(NumError(s, ErrRange))
      else Scan(s, k + 1, n1 as uint32)
  }

  /** strconv.ParseUint(s, 10, 32): it accepts only non-empty strings of decimal
      digits, and its error always names the text it refused. */
  function ParseUint32(s: string): (r: Result<uint32, NumError>)
    ensures r.Ok? ==> |s| > 0 && AllDigits(s)
    ensures r.Err? ==> r.error.num == s
  {
    if s == [] then Err(NumError(s, ErrSyntax)) else Scan(s, 0, 0)
  }

  /** ParseUint(s, 10, 32) succeeds exactly on the non-empty digit strings whose value
      fits in 32 bits, and then returns that value; its error always names s. */
  lemma ParseUint32Contract(s: string)
    ensures ParseUint32(s).Ok? <==> IsUint32Text(s)
    ensures ParseUint32(s).Ok? ==> ParseUint32(s).value as int == DecimalValue(s)
    ensures ParseUint32(s).Err? ==> ParseUint32(s).error.num == s
  {
    ParseUint32MatchesSpec(s);
    ParseSpecOkIff(s);
  }

  /** The library's byte-by-byte scan agrees with the reference definition. */
  lemma ParseUint32MatchesSpec(s: string)
    ensures ParseUint32(s) == ParseSpec(s)
  {
    if s != [] {
      ScanMatchesSpec(s, 0, 0);
    }
  }

  lemma DecimalValueStep(s: string, k: nat)
    requires k < |s| && AllDigits(s[..k + 1])
    ensures AllDigits(s[..k])
    ensures DecimalValue(s[..k + 1]) == 10 * DecimalValue(s[..k]) + Digit(s[k])
  {
    assert s[..k + 1][..k] == s[..k];
  }

  /** Adding digits never lowers the value of a digit prefix. */
  lemma {:induction false} DecimalValueMonotone(s: string, j: nat, k: nat)
    requires j <= k <= |s| && AllDigits(s[..k])
    ensures AllDigits(s[..j])
    ensures DecimalValue(s[..j]) <= DecimalValue(s[..k])
  {
    assert forall i :: 0 <= i < j ==> s[..j][i] == s[..k][i];
    if j < k {
      DecimalValueStep(s, k - 1);
      DecimalValueMonotone(s, j, k - 1);
    }
  }

  /** The scan agrees with the reference definition from any position whose prefix is
      all digits and whose running value is that prefix's value. */
  lemma {:induction false} ScanMatchesSpec(s: string, k: nat, n: uint32)
    requires 0 < |s| && k <= |s|
    requires AllDigits(s[..k]) && n as int == DecimalValue(s[..k])
    ensures Scan(s, k, n) == ParseSpec(s)
    decreases |s| - k
  {
    var len := DigitPrefixLength(s);
    assert len >= k by {
      assert forall i :: 0 <= i < k ==> s[..k][i] == s[i];
    }
    if k == |s| {
      assert s[..k] == s && s[..len] == s;
    } else if !IsDigit(s[k]) {
      assert len == k;
    } else {
      assert AllDigits(s[..k + 1]) by {
        assert forall i :: 0 <= i < k ==> s[..k + 1][i] == s[..k][i];
      }
      DecimalValueStep(s, k);
      var n1 := 10 * n as int + Digit(s[k]);
      if n1 > MAX_UINT32 {
        assert AllDigits(s[..len]);
        DecimalValueMonotone(s, k + 1, len);
      } else {
        ScanMatchesSpec(s, k + 1, n1 as uint32);
      }
    }
  }

  /** The reference definition succeeds exactly on IsUint32Text, with the decimal value. */
  lemma ParseSpecOkIff(s: string)
    ensures ParseSpec(s).Ok? <==> IsUint32Text(s)
    ensures ParseSpec(s).Ok? ==> ParseSpec(s).value as int == DecimalValue(s)
  {
    var len := DigitPrefixLength(s);
    if IsUint32Text(s) {
      assert s[..len] == s;
    }
  }

  /** Which error a refused string gets: a range error exactly when its leading run of
      digits overflows 32 bits, so "4294967296x" is out of range, while "x1" and "12x"
      are syntax errors. */
  lemma ParseUint32ErrorKind(s: string)
    requires !IsUint32Text(s)
    ensures ParseUint32(s) == Err(NumError(s, ErrRange)) <==>
            (|s| > 0 && DecimalValue(s[..DigitPrefixLength(s)]) > MAX_UINT32)
    ensures ParseUint32(s) == Err(NumError(s, ErrSyntax)) <==>
            (|s| == 0 || DecimalValue(s[..DigitPrefixLength(s)]) <= MAX_UINT32)
  {
    ParseUint32MatchesSpec(s);
  }

  /** "12" parses to twelve. */
  lemma ParseUint32Twelve()
    ensures ParseUint32("12") == Ok(12)
  {
  }

  /** Letters are a syntax error. */
  lemma ParseUint32RefusesLetters()
    ensures ParseUint32("abc") == Err(NumError("abc", ErrSyntax))
  {
  }

  /** 2^32 is a range error: the value does not wrap around. */
  lemma ParseUint32RefusesOverflow()
    ensures ParseUint32("4294967296") == Err(NumError("4294967296", ErrRange))
  {
  }

  /** "0" parses to zero. */
  lemma ParseUint32Zero()
    ensures ParseUint32("0") == Ok(0)
  {
  }

  /** "3" parses to three. */
  lemma ParseUint32Three()
    ensures ParseUint32("3") == Ok(3)
  {
  }
}
