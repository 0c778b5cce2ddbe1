/**
 * Decimal conversion as the certificate helpers rely on it: `strconv.Atoi`
 * turns the caller's serial-number string into a platform `int` (64 bits
 * here). The accepted language is an optional '+' or '-' followed by one or
 * more ASCII digits, and the value must lie in the 64-bit signed range.
 * `Itoa` is the inverse direction, used only to state the round trip.
 */
module Strconv {
  import opened Wrappers

  const MinInt: int := -0x8000_0000_0000_0000
  const MaxInt: int := 0x7FFF_FFFF_FFFF_FFFF

  predicate InIntRange(v: int) {
    MinInt <= v <= MaxInt
  }

  predicate IsDigit(c: char) {
    '0' <= c <= '9'
  }

  function DigitValue(c: char): (d: nat)
    requires IsDigit(c)
    ensures d < 10
  {
    c as int - '0' as int
  }

  function DigitChar(d: nat): (c: char)
    requires d < 10
    ensures IsDigit(c) && DigitValue(c) == d
  {
    ('0' as int + d) as char
  }

  predicate AllDigits(s: string) {
    forall i :: 0 <= i < |s| ==> IsDigit(s[i])
  }

  function Pow10(n: nat): (p: nat)
    ensures p >= 1
  {
    if n == 0 then 1 else 10 * Pow10(n - 1)
  }

  /**
   * Reference reading of a digit string: the numeral's value, taking the
   * last digit as the units.
   */
  function DecimalValue(ds: string): nat
    requires AllDigits(ds)
  {
    if ds == [] then 0 else DecimalValue(ds[..|ds| - 1]) * 10 + DigitValue(ds[|ds| - 1])
  }

  /** The optional leading sign, and the rest of the string. */
  function SplitSign(s: string): (bool, string) {
    if |s| > 0 && (s[0] == '+' || s[0] == '-') then (s[0] == '-', s[1..]) else (false, s)
  }

  /** An optional sign followed by at least one digit, and nothing else. */
  predicate IsNumeral(s: string) {
    var (_, ds) := SplitSign(s);
    |ds| > 0 && AllDigits(ds)
  }

  function NumeralValue(s: string): int
    requires IsNumeral(s)
  {
    var (neg, ds) := SplitSign(s);
    if neg then -(DecimalValue(ds) as int) else DecimalValue(ds)
  }

  /**
   * The conversion loop of strconv: read left to right, multiply the
   * accumulator by ten and add the digit; stop at the first non-digit.
   */
  function Scan(ds: string, acc: nat): Option<nat> {
    if ds == [] then Some(acc)
    else if !IsDigit(ds[0]) then None
    else Scan(ds[1..], acc * 10 + DigitValue(ds[0]))
  }

  lemma {:induction false} DecimalValueCons(d: char, rest: string)
    requires IsDigit(d) && AllDigits(rest)
    ensures AllDigits([d] + rest)
    ensures DecimalValue([d] + rest) == DigitValue(d) * Pow10(|rest|) + DecimalValue(rest)
  {
    var s := [d] + rest;
    assert AllDigits(s) by {
      forall i | 0 <= i < |s| ensures IsDigit(s[i]) {
        if i > 0 { assert s[i] == rest[i - 1]; }
      }
    }
    if rest != [] {
      var init := rest[..|rest| - 1];
      var last := rest[|rest| - 1];
      assert AllDigits(init);
      assert s[..|s| - 1] == [d] + init;
      assert s[|s| - 1] == last;
      DecimalValueCons(d, init);
      calc {
        DecimalValue(s);
        DecimalValue([d] + init) * 10 + DigitValue(last);
        (DigitValue(d) * Pow10(|init|) + DecimalValue(init)) * 10 + DigitValue(last);
        DigitValue(d) * (Pow10(|init|) * 10) + (DecimalValue(init) * 10 + DigitValue(last));
        DigitValue(d) * Pow10(|rest|) + DecimalValue(rest);
      }
    }
  }

  /** The left-to-right loop computes the reference value of a digit string. */
  lemma {:induction false} ScanValue(ds: string, acc: nat)
    requires AllDigits(ds)
    ensures Scan(ds, acc) == Some(acc * Pow10(|ds|) + DecimalValue(ds))
  {
    if ds != [] {
      var d, rest := ds[0], ds[1..];
      assert AllDigits(rest);
      ScanValue(rest, acc * 10 + DigitValue(d));
      assert [d] + rest == ds;
      DecimalValueCons(d, rest);
      var p := Pow10(|rest|);
      assert Pow10(|ds|) == 10 * p;
      calc {
        (acc * 10 + DigitValue(d)) * p + DecimalValue(rest);
        acc * (10 * p) + (DigitValue(d) * p + DecimalValue(rest));
      }
    }
  }

  /** The loop stops with no value exactly when some character is not a digit. */
  lemma {:induction false} ScanRejects(ds: string, acc: nat)
    ensures Scan(ds, acc).None? <==> !AllDigits(ds)
  {
    if ds == [] {
    } else if !IsDigit(ds[0]) {
    } else {
      ScanRejects(ds[1..], acc * 10 + DigitValue(ds[0]));
      if !AllDigits(ds[1..]) {
        var i :| 0 <= i < |ds[1..]| && !IsDigit(ds[1..][i]);
        assert !IsDigit(ds[i + 1]);
      } else {
        forall i | 0 <= i < |ds| ensures IsDigit(ds[i]) {
          if i > 0 { assert ds[i] == ds[1..][i - 1]; }
        }
      }
    }
  }

  /**
   * `strconv.Atoi` on a 64-bit platform: the empty string, a lone sign, any
   * character other than a digit after the sign, and a value outside the
   * `int` range are all rejected.
   */
  function Atoi(s: string): (r: Option<int>)
    ensures r.Some? <==> IsNumeral(s) && InIntRange(NumeralValue(s))
    ensures r.Some? ==> r.value == NumeralValue(s)
  {
    var (neg, ds) := SplitSign(s);
    if ds == [] then None
    else
      ScanRejects(ds, 0);
      match Scan(ds, 0)
      case None => None
      case Some(u) =>
        ScanValue(ds, 0);
        var v := if neg then -(u as int) else u;
        if MinInt <= v <= MaxInt then Some(v) else None
  }

  /** The shortest decimal digits of a natural number. */
  function FormatDigits(n: nat): (s: string)
    ensures |s| >= 1 && AllDigits(s)
    ensures DecimalValue(s) == n
  {
    if n < 10 then [DigitChar(n)]
    else
      var init := FormatDigits(n / 10);
      var s := init + [DigitChar(n % 10)];
      assert s[..|s| - 1] == init;
      s
  }

  /** `strconv.Itoa`: a '-' for negative values, then the digits of the magnitude. */
  function Itoa(v: int): (s: string)
    ensures IsNumeral(s) && NumeralValue(s) == v
  {
    if v < 0 then
      var s := "-" + FormatDigits(-v);
      assert SplitSign(s).1 == FormatDigits(-v);
      s
    else
      FormatDigits(v)
  }

  /**
   * Every `int` survives a trip through its decimal form, and every integer
   * outside the range is rejected however it is written by Itoa.
   */
  lemma AtoiItoa(v: int)
    ensures Atoi(Itoa(v)) == if InIntRange(v) then Some(v) else None
  {
  }

  /** Examples of the accepted language: the sign is optional and leading zeros are read. */
  lemma AtoiExamples()
    ensures Atoi("+007") == Some(7)
    ensures Atoi("-12") == Some(-12)
    ensures Atoi("") == None
    ensures Atoi("+") == None
    ensures Atoi("12a") == None
    ensures Atoi("1_000") == None
  {
    assert SplitSign("+007").1 == "007";
    assert DecimalValue("007") == 7 by {
      assert "007"[..2] == "00" && "00"[..1] == "0" && "0"[..0] == "";
    }
    assert SplitSign("-12").1 == "12";
    assert DecimalValue("12") == 12 by {
      assert "12"[..1] == "1" && "1"[..0] == "";
    }
    assert !IsDigit("12a"[2]);
    assert !IsDigit("1_000"[1]);
  }
}
