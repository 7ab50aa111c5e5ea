/** Decimal rendering of integers, as JavaScript's template literals print
    them (`${n}`), and the reader that inverts it. */
module Decimal {

  import opened Outcomes

  predicate IsDigit(c: char)
  {
    '0' <= c <= '9'
  }

  function DigitChar(d: nat): (c: char)
    requires d < 10
    ensures IsDigit(c)
  {
    (('0' as int) + d) as char
  }

  function DigitValue(c: char): (d: nat)
    requires IsDigit(c)
    ensures d < 10
  {
    (c as int) - ('0' as int)
  }

  predicate AllDigits(s: string)
  {
    forall i :: 0 <= i < |s| ==> IsDigit(s[i])
  }

  /** `${n}` for a natural number: shortest decimal form, no leading zero. */
  function NatToString(n: nat): (s: string)
    ensures |s| > 0 && AllDigits(s)
    ensures |s| > 1 ==> s[0] != '0'
  {
    if n < 10 then [DigitChar(n)] else NatToString(n / 10) + [DigitChar(n % 10)]
  }

  /** `${i}` for any integer. */
  function IntToString(i: int): (s: string)
    ensures |s| > 0
  {
    if i < 0 then "-" + NatToString(-i) else NatToString(i)
  }

  /** The number a string of digits denotes. */
  function DigitsValue(s: string): nat
    requires AllDigits(s)
  {
    if |s| == 0 then 0 else DigitsValue(s[..|s| - 1]) * 10 + DigitValue(s[|s| - 1])
  }

  /** Length of the run of digits that starts `s`. */
  function DigitRun(s: string): (k: nat)
    ensures k <= |s| && AllDigits(s[..k])
    ensures k < |s| ==> !IsDigit(s[k])
  {
    if |s| == 0 || !IsDigit(s[0]) then 0
    else
      var k := 1 + DigitRun(s[1..]);
      assert s[..k] == [s[0]] + s[1..][..k - 1];
      k
  }

  /** Reads a decimal number followed by the literal `unit`, returning the
      number and what follows the unit; None when either is missing. */
  function ReadField(s: string, unit: string): Option<(nat, string)>
  {
    var k := DigitRun(s);
    if k == 0 || !(unit <= s[k..]) then None
    else Some((DigitsValue(s[..k]), s[k + |unit|..]))
  }

  /** Reading back a rendered number gives the number. */
  lemma {:induction false} NatToStringValue(n: nat)
    ensures DigitsValue(NatToString(n)) == n
  {
    if n >= 10 {
      var s := NatToString(n);
      NatToStringValue(n / 10);
      assert s[..|s| - 1] == NatToString(n / 10);
    }
  }

  /** Rendering is injective: different numbers print differently. */
  lemma {:induction false} NatToStringInjective(m: nat, n: nat)
    ensures NatToString(m) == NatToString(n) ==> m == n
  {
    NatToStringValue(m);
    NatToStringValue(n);
  }

  /** The digit run of a rendered number stops exactly where the number ends
      when the next character is not a digit. */
  lemma {:induction false} DigitRunAppend(d: string, t: string)
    requires AllDigits(d)
    requires |t| > 0 ==> !IsDigit(t[0])
    ensures DigitRun(d + t) == |d|
  {
    if |d| > 0 {
      assert (d + t)[1..] == d[1..] + t;
      DigitRunAppend(d[1..], t);
    }
  }

  /** A field rendered as `${n}` followed by a unit that does not start with a
      digit reads back as n, with the rest of the string. */
  lemma {:induction false} ReadRenderedField(n: nat, unit: string, t: string)
    requires |unit| > 0 && !IsDigit(unit[0])
    ensures ReadField(NatToString(n) + unit + t, unit) == Some((n, t))
  {
    var d := NatToString(n);
    var s := d + unit + t;
    assert s == d + (unit + t);
    DigitRunAppend(d, unit + t);
    assert s[..|d|] == d;
    assert s[|d|..] == unit + t;
    NatToStringValue(n);
  }

  /** A field rendered as `${n}` followed by text that does not start with
      `unit` does not read as a `unit` field. */
  lemma {:induction false} ReadOtherField(n: nat, unit: string, t: string)
    requires |t| > 0 && !IsDigit(t[0])
    requires !(unit <= t)
    ensures ReadField(NatToString(n) + t, unit) == None
  {
    var d := NatToString(n);
    DigitRunAppend(d, t);
    assert (d + t)[|d|..] == t;
  }
}
