/**
 * Display-name formatting of api/index.js: `String(puppetNum)` renders the
 * ordinal in decimal, `padStart(4, '0')` left-pads it with zeros to a
 * minimum width of four, and the name is the fixed prefix followed by the
 * padded number.
 */
module Naming {

  const Prefix: string := "Herta Puppet #"
  const MinWidth: nat := 4

  predicate IsDigit(c: char)
  {
    '0' <= c <= '9'
  }

  predicate AllDigits(s: string)
  {
    forall i :: 0 <= i < |s| ==> IsDigit(s[i])
  }

  function DigitChar(d: nat): (c: char)
    requires d < 10
    ensures IsDigit(c)
  {
    ('0' as int + d) as char
  }

  function DigitValue(c: char): (d: nat)
    requires IsDigit(c)
    ensures d < 10 && DigitChar(d) == c
  {
    c as int - '0' as int
  }

  /** The number a string of decimal digits denotes, most significant digit first. */
  function Value(s: string): nat
    requires AllDigits(s)
  {
    if s == [] then 0 else Value(s[..|s| - 1]) * 10 + DigitValue(s[|s| - 1])
  }

  function Pow10(k: nat): (p: nat)
    ensures p >= 1
  {
    if k == 0 then 1 else 10 * Pow10(k - 1)
  }

  /**
   * `String(n)` for a non-negative integer: its shortest decimal digits,
   * with no leading zero except for 0 itself.
   */
  function Decimal(n: nat): (s: string)
    ensures |s| >= 1 && AllDigits(s)
    ensures s[0] == '0' ==> n == 0
  {
    if n < 10 then [DigitChar(n)] else Decimal(n / 10) + [DigitChar(n % 10)]
  }

  /** Reading the digits back gives the number. */
  lemma {:induction false} DecimalValue(n: nat)
    ensures Value(Decimal(n)) == n
  {
    if n >= 10 {
      DecimalValue(n / 10);
      var s := Decimal(n);
      assert s[..|s| - 1] == Decimal(n / 10);
    }
  }

  /** `n` needs at most `k` digits exactly when it is below 10^k. */
  lemma {:induction false} DecimalLength(n: nat, k: nat)
    requires k >= 1
    ensures |Decimal(n)| <= k <==> n < Pow10(k)
  {
    if n >= 10 && k >= 2 {
      DecimalLength(n / 10, k - 1);
    }
  }

  /** `count` copies of `c`. */
  function Repeat(c: char, count: nat): (r: string)
    ensures |r| == count
    ensures forall i :: 0 <= i < count ==> r[i] == c
  {
    if count == 0 then [] else [c] + Repeat(c, count - 1)
  }

  function Max(a: nat, b: nat): nat
  {
    if a >= b then a else b
  }

  /**
   * `s.padStart(targetLength, fill)` with a one-character filler: a string
   * already at least `targetLength` long comes back unchanged, never cut;
   * a shorter one gets copies of `fill` in front up to that length.
   */
  function PadStart(s: string, targetLength: nat, fill: char): (r: string)
    ensures |r| == Max(targetLength, |s|)
    ensures r[|r| - |s|..] == s
    ensures forall i :: 0 <= i < |r| - |s| ==> r[i] == fill
  {
    if |s| >= targetLength then s else Repeat(fill, targetLength - |s|) + s
  }

  /**
   * `String(puppetNum).padStart(4, '0')`: all digits, `max(4, digits of n)`
   * long, ending with the unpadded digits (nothing is truncated), and
   * reading back as `n`.
   */
  function Padded(n: nat): (r: string)
    ensures AllDigits(r)
    ensures |r| == Max(MinWidth, |Decimal(n)|)
    ensures r[|r| - |Decimal(n)|..] == Decimal(n)
    ensures Value(r) == n
  {
    var d := Decimal(n);
    DecimalValue(n);
    if |d| < MinWidth then
      LeadingZerosValue(MinWidth - |d|, d);
      PadStart(d, MinWidth, '0')
    else
      PadStart(d, MinWidth, '0')
  }

  /**
   * The display name the callback gives the account: the fixed prefix,
   * then a run of digits that reads back as the puppet number.
   */
  function DisplayName(n: nat): (r: string)
    ensures |r| == |Prefix| + |Padded(n)|
    ensures r[..|Prefix|] == Prefix
    ensures AllDigits(r[|Prefix|..]) && Value(r[|Prefix|..]) == n
  {
    var name := Prefix + Padded(n);
    assert name[|Prefix|..] == Padded(n);
    name
  }

  /** Leading zeros do not change the value a digit string denotes. */
  lemma {:induction false} LeadingZerosValue(k: nat, s: string)
    requires AllDigits(s)
    ensures AllDigits(Repeat('0', k) + s)
    ensures Value(Repeat('0', k) + s) == Value(s)
    decreases |s|
  {
    var z := Repeat('0', k);
    if s == [] {
      assert z + s == z;
      ZerosValue(k);
    } else {
      var front := s[..|s| - 1];
      LeadingZerosValue(k, front);
      assert (z + s)[..|z + s| - 1] == z + front;
    }
  }

  lemma {:induction false} ZerosValue(k: nat)
    ensures AllDigits(Repeat('0', k))
    ensures Value(Repeat('0', k)) == 0
  {
    if k > 0 {
      ZerosValue(k - 1);
      var z := Repeat('0', k);
      assert z[..k - 1] == Repeat('0', k - 1);
    }
  }

  /** Below 10000 the padded form is exactly four characters; from 10000 on it widens. */
  lemma PaddedWidth(n: nat)
    ensures |Padded(n)| == 4 <==> n < 10000
    ensures n >= 10000 ==> Padded(n) == Decimal(n)
  {
    DecimalLength(n, 4);
    assert Pow10(4) == 10000;
  }

  lemma PaddedExamples()
    ensures Padded(7) == "0007"
    ensures Padded(12345) == "12345"
    ensures DisplayName(1) == "Herta Puppet #0001"
  {
    assert Decimal(7) == "7";
    assert Decimal(1) == "1";
    assert Decimal(12345) == "12345";
  }

  /** Distinct puppet numbers get distinct display names. */
  lemma DisplayNameInjective(a: nat, b: nat)
    requires DisplayName(a) == DisplayName(b)
    ensures a == b
  {
    var digits := DisplayName(a)[|Prefix|..];
    assert digits == DisplayName(b)[|Prefix|..];
  }
}
