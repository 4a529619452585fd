/**
 * Decimal text for non-negative integers: `n.toString()` and
 * `n.toString().padStart(2, "0")`, as the clock and the stopwatch display use
 * them, together with the reading back of a digit string, against which
 * every formatter here is proved.
 */
module Decimal {

  predicate IsDigit(c: char) { '0' <= c <= '9' }

  predicate AllDigits(s: string) { forall i :: 0 <= i < |s| ==> IsDigit(s[i]) }

  /** The character for the digit `d`. */
  function DigitChar(d: nat): (c: char)
    requires d < 10
    ensures IsDigit(c)
    ensures c as int - '0' as int == d
  {
    ('0' as int + d) as char
  }

  function DigitValue(c: char): (d: nat)
    requires IsDigit(c)
    ensures d < 10 && DigitChar(d) == c
  {
    c as int - '0' as int
  }

  /**
   * `n.toString()` for a non-negative integer: its decimal digits, with no
   * sign and no leading zero (0 itself is "0").
   */
  function NatToString(n: nat): (r: string)
    ensures |r| >= 1 && AllDigits(r)
    ensures r[0] == '0' <==> n == 0
  {
    if n < 10 then [DigitChar(n)] else NatToString(n / 10) + [DigitChar(n % 10)]
  }

  /** The number a string of decimal digits denotes ("" denotes 0). */
  function Value(s: string): nat
    requires AllDigits(s)
  {
    if s == [] then 0 else Value(s[..|s| - 1]) * 10 + DigitValue(s[|s| - 1])
  }

  /** `s.padStart(width, "0")`: zeros in front up to `width` characters; a longer `s` is kept whole. */
  function PadStart(s: string, width: nat): (r: string)
    ensures |r| == if |s| < width then width else |s|
    ensures r[|r| - |s|..] == s
    ensures forall i :: 0 <= i < |r| - |s| ==> r[i] == '0'
  {
    var fill := if |s| < width then width - |s| else 0;
    seq(fill, _ => '0') + s
  }

  /** `pad2(x)` of the clock and the stopwatch's `padStart(2, "0")`. */
  function Pad2(n: nat): (r: string)
    ensures |r| >= 2 && |r| >= |NatToString(n)|
    ensures r[|r| - |NatToString(n)|..] == NatToString(n)
    ensures forall i :: 0 <= i < |r| - |NatToString(n)| ==> r[i] == '0'
  {
    PadStart(NatToString(n), 2)
  }

  /** Reading `n.toString()` back gives `n`. */
  lemma {:induction false} ValueOfNatToString(n: nat)
    ensures Value(NatToString(n)) == n
  {
    if n >= 10 {
      var s := NatToString(n / 10);
      var r := NatToString(n);
      assert r == s + [DigitChar(n % 10)];
      assert r[..|r| - 1] == s;
      ValueOfNatToString(n / 10);
    }
  }

  /** Leading zeros do not change the number a digit string denotes. */
  lemma {:induction false} ValueOfLeadingZeros(z: string, s: string)
    requires AllDigits(s)
    requires forall i :: 0 <= i < |z| ==> z[i] == '0'
    ensures AllDigits(z + s) && Value(z + s) == Value(s)
    decreases |s|
  {
    if s == [] {
      assert z + s == z;
      ZerosValue(z);
    } else {
      var s' := s[..|s| - 1];
      assert (z + s)[..|z + s| - 1] == z + s';
      ValueOfLeadingZeros(z, s');
    }
  }

  lemma {:induction false} ZerosValue(z: string)
    requires forall i :: 0 <= i < |z| ==> z[i] == '0'
    ensures AllDigits(z) && Value(z) == 0
    decreases |z|
  {
    if z != [] {
      ZerosValue(z[..|z| - 1]);
    }
  }

  /** `n.toString()` has one character exactly when `n < 10` and two when `10 <= n < 100`. */
  lemma NatToStringLength(n: nat)
    ensures |NatToString(n)| == 1 <==> n < 10
    ensures 10 <= n < 100 ==> |NatToString(n)| == 2
  {
    if n >= 10 {
      assert NatToString(n) == NatToString(n / 10) + [DigitChar(n % 10)];
    }
  }

  /**
   * `pad2(n)` is all digits, denotes `n`, has exactly two characters when
   * `n < 100`, starts with '0' exactly when `n < 10`, and is never shorter
   * than `n.toString()`, so no digit of a large `n` is cut off.
   */
  lemma {:induction false} Pad2Digits(n: nat)
    ensures AllDigits(Pad2(n)) && Value(Pad2(n)) == n
    ensures |Pad2(n)| >= 2 && |Pad2(n)| >= |NatToString(n)|
    ensures n < 100 ==> |Pad2(n)| == 2
    ensures Pad2(n)[0] == '0' <==> n < 10
  {
    var s := NatToString(n);
    var r := Pad2(n);
    NatToStringLength(n);
    var z := r[..|r| - |s|];
    assert r == z + s;
    ValueOfLeadingZeros(z, s);
    ValueOfNatToString(n);
    if n < 10 {
      assert |z| == 1 && r[0] == z[0] == '0';
    } else {
      assert z == [] && r == s;
    }
  }

  /** Below 100, `pad2(n)` has exactly two characters. */
  lemma Pad2Length(n: nat)
    requires n < 100
    ensures |Pad2(n)| == 2
  {
    NatToStringLength(n);
  }

  /** `pad2(n)` for a given pair of digit characters, as the worked examples use it. */
  lemma Pad2Is(n: nat, tens: char, units: char)
    requires n < 100 && DigitChar(n / 10) == tens && DigitChar(n % 10) == units
    ensures Pad2(n) == [tens, units]
  {
    Pad2Small(n);
  }

  /** Below 100, `pad2(n)` is the tens digit followed by the units digit. */
  lemma {:induction false} Pad2Small(n: nat)
    requires n < 100
    ensures Pad2(n) == [DigitChar(n / 10), DigitChar(n % 10)]
  {
    var s := NatToString(n);
    if n < 10 {
      assert s == [DigitChar(n)];
      assert n / 10 == 0 && n % 10 == n;
      assert DigitChar(0) == '0';
      assert PadStart(s, 2) == ['0'] + s;
    } else {
      var q := n / 10;
      assert q < 10;
      assert NatToString(q) == [DigitChar(q)];
      assert s == [DigitChar(q)] + [DigitChar(n % 10)];
      assert PadStart(s, 2) == s;
    }
  }
}
