/**
 * Decimal rendering of natural numbers, as Python's `str(n)`, `s.zfill(w)`
 * and the `:02d` format specification produce it for non-negative integers,
 * together with the parse that inverts it.
 */
module Decimal {

  predicate IsDigit(c: char) {
    '0' <= c <= '9'
  }

  predicate IsDigits(s: string) {
    forall i :: 0 <= i < |s| ==> IsDigit(s[i])
  }

  function DigitChar(d: nat): (c: char)
    requires d < 10
    ensures IsDigit(c)
  {
    ('0' as int + d) as char
  }

  /** The value of a digit character; meaningful only for `IsDigit(c)`. */
  function DigitValue(c: char): int {
    c as int - '0' as int
  }

  /** The value of a string of decimal digits, most significant first. */
  function DecimalValue(s: string): int {
    if s == [] then 0 else DecimalValue(s[..|s| - 1]) * 10 + DigitValue(s[|s| - 1])
  }

  /** `str(n)` for a non-negative integer: shortest decimal form, no sign. */
  function NatToDecimal(n: nat): (s: string)
    ensures |s| >= 1 && (s[0] == '0' ==> n == 0)
    decreases n
  {
    if n < 10 then [DigitChar(n)] else NatToDecimal(n / 10) + [DigitChar(n % 10)]
  }

  /**
   * `str(n)` is a non-empty run of digits whose value is `n`, starting with
   * '0' only for zero, one digit exactly below 10 and at most two below 100.
   */
  lemma {:induction false} NatToDecimalDigits(n: nat)
    ensures IsDigits(NatToDecimal(n)) && |NatToDecimal(n)| >= 1
    ensures DecimalValue(NatToDecimal(n)) == n
    ensures NatToDecimal(n)[0] == '0' <==> n == 0
    ensures n < 10 <==> |NatToDecimal(n)| == 1
    ensures n < 100 <==> |NatToDecimal(n)| <= 2
    decreases n
  {
    if n >= 10 {
      NatToDecimalDigits(n / 10);
      var s := NatToDecimal(n);
      assert s[..|s| - 1] == NatToDecimal(n / 10);
    }
  }

  function Zeros(k: nat): (z: string)
    ensures |z| == k
    ensures forall i :: 0 <= i < k ==> z[i] == '0'
  {
    if k == 0 then [] else Zeros(k - 1) + ['0']
  }

  /** `s.zfill(width)` for a string without a sign: left-pad with '0' to `width`. */
  function ZFill(s: string, width: nat): (r: string)
    ensures |r| == if |s| >= width then |s| else width
    ensures r[|r| - |s|..] == s
    ensures forall i :: 0 <= i < |r| - |s| ==> r[i] == '0'
  {
    if |s| >= width then s else Zeros(width - |s|) + s
  }

  /** Leading zeros do not change the value of a digit string. */
  lemma {:induction false} LeadingZerosValue(k: nat, s: string)
    ensures DecimalValue(Zeros(k) + s) == DecimalValue(s)
    decreases |s|
  {
    var t := Zeros(k) + s;
    if s == [] {
      assert t == Zeros(k);
      ZerosValue(k);
    } else {
      var init := s[..|s| - 1];
      assert t[..|t| - 1] == Zeros(k) + init;
      LeadingZerosValue(k, init);
    }
  }

  lemma {:induction false} ZerosValue(k: nat)
    ensures DecimalValue(Zeros(k)) == 0
  {
    if k > 0 {
      assert Zeros(k)[..k - 1] == Zeros(k - 1);
      ZerosValue(k - 1);
    }
  }

  /**
   * `f"{n:02d}"` for a non-negative `n`: a leading '0' before a single digit,
   * `str(n)` otherwise.
   */
  function Pad2(n: nat): (r: string)
    ensures |r| >= 2 && (n < 100 ==> |r| == 2)
  {
    NatToDecimalDigits(n);
    if n < 10 then ['0', DigitChar(n)] else NatToDecimal(n)
  }

  /** `Pad2` agrees with `str(n).zfill(2)`: same value, two digits below 100. */
  lemma Pad2Digits(n: nat)
    ensures IsDigits(Pad2(n)) && DecimalValue(Pad2(n)) == n
    ensures n < 100 <==> |Pad2(n)| == 2
    ensures Pad2(n) == ZFill(NatToDecimal(n), 2)
  {
    NatToDecimalDigits(n);
    if n < 10 {
      var r := ['0', DigitChar(n)];
      assert r[..1] == ['0'] && ['0'][..0] == [];
      assert NatToDecimal(n) == [DigitChar(n)] && Zeros(1) == ['0'];
    }
  }
}
