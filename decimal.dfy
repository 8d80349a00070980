/**
 * Decimal rendering of integers as Python does it: `str(n)` and the zero-padded
 * `f"{n:0Wd}"` / `strftime` fields, with the parser that inverts them.
 */
module Decimal {

  /** The digit character for `d`. */
  function DigitChar(d: nat): (c: char)
    requires d < 10
    ensures '0' <= c <= '9'
  {
    (('0' as int) + d) as char
  }

  /** True when every character of `s` is an ASCII digit. */
  predicate AllDigits(s: string) {
    forall i :: 0 <= i < |s| ==> '0' <= s[i] <= '9'
  }

  /** `str(n)` for a natural number: its shortest decimal representation. */
  function Digits(n: nat): (r: string)
    ensures |r| >= 1 && AllDigits(r)
    ensures r[0] == '0' ==> n == 0
    decreases n
  {
    if n < 10 then [DigitChar(n)] else Digits(n / 10) + [DigitChar(n % 10)]
  }

  /** The value of a string of decimal digits, read from the left. */
  function ParseDigits(s: string): int
    requires AllDigits(s)
    decreases |s|
  {
    if s == [] then 0
    else ParseDigits(s[..|s| - 1]) * 10 + (s[|s| - 1] as int - '0' as int)
  }

  /** Reading back the digits of `n` gives `n`. */
  lemma {:induction false} ParseDigitsOfDigits(n: nat)
    ensures ParseDigits(Digits(n)) == n
    decreases n
  {
    if n >= 10 {
      var s := Digits(n);
      assert s[..|s| - 1] == Digits(n / 10);
      ParseDigitsOfDigits(n / 10);
    }
  }

  /** Distinct numbers have distinct decimal strings. */
  lemma DigitsInjective(a: nat, b: nat)
    requires Digits(a) == Digits(b)
    ensures a == b
  {
    ParseDigitsOfDigits(a);
    ParseDigitsOfDigits(b);
  }

  /** `10^k`. */
  function Pow10(k: nat): (r: nat)
    ensures r >= 1
  {
    if k == 0 then 1 else 10 * Pow10(k - 1)
  }

  /** A number below `10^k` (with `k >= 1`) has at most `k` digits. */
  lemma {:induction false} DigitsLength(n: nat, k: nat)
    requires k >= 1 && n < Pow10(k)
    ensures |Digits(n)| <= k
    decreases k
  {
    if n >= 10 {
      assert k >= 2;
      DigitsLength(n / 10, k - 1);
    }
  }

  /** `str(i)` for any Python int: a leading `-` for negative values. */
  function IntToString(i: int): string {
    if i < 0 then "-" + Digits(-i) else Digits(i)
  }

  /** Distinct integers render as distinct strings (so `str` of an int can be parsed back). */
  lemma IntToStringInjective(a: int, b: int)
    requires IntToString(a) == IntToString(b)
    ensures a == b
  {
    var sa, sb := IntToString(a), IntToString(b);
    assert sa[0] == '-' <==> a < 0;
    assert sb[0] == '-' <==> b < 0;
    if a < 0 {
      assert Digits(-a) == sa[1..] == sb[1..] == Digits(-b);
      DigitsInjective(-a, -b);
    } else {
      DigitsInjective(a, b);
    }
  }

  /** `width` copies of `'0'`. */
  function Zeros(width: nat): (r: string)
    ensures |r| == width && AllDigits(r)
    ensures forall i :: 0 <= i < width ==> r[i] == '0'
  {
    seq(width, _ => '0')
  }

  /** `f"{n:0{width}d}"`: the digits of `n`, left-padded with zeros to at least `width`. */
  function ZeroPad(n: nat, width: nat): (r: string)
    ensures AllDigits(r)
  {
    var d := Digits(n);
    if |d| < width then Zeros(width - |d|) + d else d
  }

  /** `f"{i:0{width}d}"` for any int: a negative value keeps its `-` ahead of the zeros. */
  function PadInt(i: int, width: nat): (r: string)
    ensures i >= 0 ==> r == ZeroPad(i, width)
    ensures forall k :: 0 <= k < |r| ==> ('0' <= r[k] <= '9') || r[k] == '-'
  {
    if i < 0 then "-" + ZeroPad(-i, if width > 0 then width - 1 else 0) else ZeroPad(i, width)
  }

  /** Leading zeros do not change the value of a digit string. */
  lemma {:induction false} ParseDigitsLeadingZeros(k: nat, s: string)
    requires AllDigits(s)
    ensures ParseDigits(Zeros(k) + s) == ParseDigits(s)
    decreases |s|, k
  {
    if s == [] {
      assert Zeros(k) + s == Zeros(k);
      if k > 0 {
        assert Zeros(k)[..k - 1] == Zeros(k - 1);
        ParseDigitsLeadingZeros(k - 1, []);
        assert Zeros(k - 1) + [] == Zeros(k - 1);
      }
    } else {
      var t := Zeros(k) + s;
      assert t[..|t| - 1] == Zeros(k) + s[..|s| - 1];
      ParseDigitsLeadingZeros(k, s[..|s| - 1]);
    }
  }

  /**
   * The zero-padded field has exactly `width` characters when `n < 10^width`, and in
   * every case reads back as `n`.
   */
  lemma ZeroPadSpec(n: nat, width: nat)
    ensures ParseDigits(ZeroPad(n, width)) == n
    ensures width >= 1 && n < Pow10(width) ==> |ZeroPad(n, width)| == width
  {
    ParseDigitsOfDigits(n);
    if |Digits(n)| < width {
      ParseDigitsLeadingZeros(width - |Digits(n)|, Digits(n));
    }
    if width >= 1 && n < Pow10(width) {
      DigitsLength(n, width);
    }
  }
}
