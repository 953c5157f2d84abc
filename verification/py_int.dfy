/**
 * Python's `int(s)` on a string, restricted to an optional sign followed
 * by ASCII decimal digits, together with the decimal rendering `str(i)`
 * that it inverts.
 */
module PyInt {
  import opened Wrappers

  predicate IsDigit(c: char) { '0' <= c <= '9' }

  predicate IsSign(c: char) { c == '+' || c == '-' }

  predicate AllDigits(s: string) {
    forall i :: 0 <= i < |s| ==> IsDigit(s[i])
  }

  function DigitValue(c: char): nat
    requires IsDigit(c)
  {
    (c as int) - ('0' as int)
  }

  function DigitChar(d: nat): (c: char)
    requires d < 10
    ensures IsDigit(c) && DigitValue(c) == d
  {
    ('0' as int + d) as char
  }

  /** The value of a non-empty run of decimal digits, most significant first. */
  function ParseDigits(s: string): Option<nat>
  {
    if |s| == 0 || !IsDigit(s[|s| - 1]) then None
    else if |s| == 1 then Some(DigitValue(s[0]))
    else
      match ParseDigits(s[..|s| - 1])
      case None => None
      case Some(v) => Some(v * 10 + DigitValue(s[|s| - 1]))
  }

  /** `int(s)`: `None` stands for the `ValueError` Python raises. */
  function ParseInt(s: string): Option<int>
  {
    if |s| > 0 && IsSign(s[0]) then
      match ParseDigits(s[1..])
      case None => None
      case Some(v) => Some(if s[0] == '-' then -(v as int) else v)
    else
      match ParseDigits(s)
      case None => None
      case Some(v) => Some(v)
  }

  /** A digit run parses exactly when it is non-empty and all digits. */
  lemma {:induction false} ParseDigitsAccepts(s: string)
    ensures ParseDigits(s).Some? <==> |s| > 0 && AllDigits(s)
  {
    if |s| > 1 && IsDigit(s[|s| - 1]) {
      var p := s[..|s| - 1];
      ParseDigitsAccepts(p);
      if !AllDigits(s) {
        var i :| 0 <= i < |s| && !IsDigit(s[i]);
        assert p[i] == s[i];
      }
    }
  }

  /**
   * `int()` accepts exactly a non-empty digit run, optionally preceded by
   * one sign, and the sign fixes the sign of the value.
   */
  lemma ParseIntAccepts(s: string)
    ensures ParseInt(s).Some? <==>
              && |s| > 0
              && (IsDigit(s[0]) || (IsSign(s[0]) && |s| > 1))
              && forall i :: 1 <= i < |s| ==> IsDigit(s[i])
    ensures ParseInt(s).Some? && s[0] == '-' ==> ParseInt(s).value <= 0
    ensures ParseInt(s).Some? && s[0] != '-' ==> ParseInt(s).value >= 0
  {
    if |s| > 0 && IsSign(s[0]) {
      ParseDigitsAccepts(s[1..]);
      assert forall i :: 1 <= i < |s| ==> s[i] == s[1..][i - 1];
    } else {
      ParseDigitsAccepts(s);
    }
  }

  /** Decimal digits of a natural number without leading zeros (`str(n)`). */
  function Digits(n: nat): (s: string)
    ensures |s| > 0 && AllDigits(s)
  {
    if n < 10 then [DigitChar(n)] else Digits(n / 10) + [DigitChar(n % 10)]
  }

  /** `str(i)` for an integer: a minus sign for negatives, then the digits. */
  function Format(i: int): (s: string)
    ensures |s| > 0 && IsDigit(s[|s| - 1])
  {
    if i < 0 then "-" + Digits(-i) else Digits(i)
  }

  lemma {:induction false} ParseDigitsOfDigits(n: nat)
    ensures ParseDigits(Digits(n)) == Some(n)
  {
    if n >= 10 {
      var s := Digits(n / 10);
      var t := s + [DigitChar(n % 10)];
      assert t[..|t| - 1] == s;
      ParseDigitsOfDigits(n / 10);
    }
  }

  /** `int(str(i)) == i` for every integer `i`. */
  lemma ParseFormat(i: int)
    ensures ParseInt(Format(i)) == Some(i)
  {
    if i < 0 {
      var d := Digits(-i);
      var t := "-" + d;
      assert Format(i) == t;
      assert t[1..] == d;
      ParseDigitsOfDigits(-i);
      assert ParseDigits(t[1..]) == Some(-i);
    } else {
      var d := Digits(i);
      assert Format(i) == d;
      assert !IsSign(d[0]);
      ParseDigitsOfDigits(i);
    }
  }

  /** A run of `k` zero digits. */
  function Zeros(k: nat): (s: string)
    ensures |s| == k && forall i :: 0 <= i < k ==> s[i] == '0'
  {
    seq(k, _ => '0')
  }

  /**
   * `int()` ignores leading zeros and an explicit `+`: every digit run is
   * some zeros followed by the digits of a natural number without leading
   * zeros, and it reads as that number.
   */
  lemma ParsePaddedInt(k: nat, n: nat)
    ensures ParseInt(Zeros(k) + Digits(n)) == Some(n)
    ensures ParseInt("+" + Zeros(k) + Digits(n)) == Some(n)
    ensures ParseInt("-" + Zeros(k) + Digits(n)) == Some(-(n as int))
  {
    var d := Zeros(k) + Digits(n);
    ParsePadded(k, n);
    UnsignedRun(d);
    SignedRun('+', k, n);
    SignedRun('-', k, n);
  }

  /** A run starting with a digit is read by `int()` as it stands. */
  lemma UnsignedRun(d: string)
    requires |d| > 0 && IsDigit(d[0])
    ensures ParseInt(d) == ParseDigits(d)
  {
  }

  /** A sign in front of a padded digit run: `int()` reads the run after it. */
  lemma SignedRun(c: char, k: nat, n: nat)
    requires IsSign(c)
    ensures ParseInt([c] + Zeros(k) + Digits(n)) == Some(if c == '-' then -(n as int) else n)
  {
    var d := Zeros(k) + Digits(n);
    var s := [c] + Zeros(k) + Digits(n);
    assert s[1..] == d;
    ParsePadded(k, n);
  }

  /** A non-empty run of zeros reads as 0. */
  lemma {:induction false} ParseZeros(k: nat)
    requires k > 0
    ensures ParseDigits(Zeros(k)) == Some(0)
  {
    if k > 1 {
      assert Zeros(k)[..k - 1] == Zeros(k - 1);
      ParseZeros(k - 1);
    }
  }

  lemma {:induction false} ParsePadded(k: nat, n: nat)
    ensures ParseDigits(Zeros(k) + Digits(n)) == Some(n)
  {
    var s := Zeros(k) + Digits(n);
    if n < 10 {
      if k > 0 {
        assert s[..|s| - 1] == Zeros(k);
        ParseZeros(k);
      }
    } else {
      var p := Zeros(k) + Digits(n / 10);
      assert s == p + [DigitChar(n % 10)];
      assert s[..|s| - 1] == p;
      ParsePadded(k, n / 10);
    }
  }
}
