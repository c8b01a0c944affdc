/** Small shared helpers: an optional value (a key that may be missing from a
    record) and the decimal rendering of integers used in justification texts. */
module Common {

  /** A value that may be absent, as a dictionary key that may be missing. */
  datatype Option<+T> = None | Some(value: T) {
    /** The value, or `default` when absent (the source's `dict.get(key, default)`). */
    function GetOr(default: T): (r: T)
      ensures Some? ==> r == value
      ensures None? ==> r == default
    {
      match this
      case Some(v) => v
      case None => default
    }
  }

  /** The character of a decimal digit. */
  function DigitChar(d: nat): (c: char)
    requires d < 10
    ensures '0' <= c <= '9'
    ensures c as int - '0' as int == d
  {
    "0123456789"[d]
  }

  predicate IsDigits(s: string) {
    forall i :: 0 <= i < |s| ==> '0' <= s[i] <= '9'
  }

  /** The number a string of decimal digits spells, most significant first. */
  function DigitsValue(s: string): (v: nat)
    requires IsDigits(s)
    decreases |s|
  {
    if s == [] then 0 else DigitsValue(s[..|s| - 1]) * 10 + (s[|s| - 1] as int - '0' as int)
  }

  /** Decimal rendering of a natural number, most significant digit first. */
  function NatToString(n: nat): (s: string)
    ensures |s| >= 1 && IsDigits(s)
    decreases n
  {
    if n < 10 then [DigitChar(n)] else NatToString(n / 10) + [DigitChar(n % 10)]
  }

  /** Decimal rendering of an integer, with a leading '-' when negative
      (what an f-string does with an `int`). */
  function IntToString(i: int): (s: string)
    ensures |s| >= 1
    ensures i < 0 <==> s[0] == '-'
  {
    if i < 0 then "-" + NatToString(-i) else NatToString(i)
  }

  /** The digits of `NatToString(n)` spell `n`. */
  lemma {:induction false} NatToStringValue(n: nat)
    ensures DigitsValue(NatToString(n)) == n
    decreases n
  {
    if n >= 10 {
      NatToStringValue(n / 10);
      var s := NatToString(n);
      assert s[..|s| - 1] == NatToString(n / 10);
    }
  }

  /** The digits of `IntToString(i)` after any sign spell the magnitude of `i`. */
  lemma IntToStringValue(i: int)
    ensures i >= 0 ==> IsDigits(IntToString(i)) && DigitsValue(IntToString(i)) == i
    ensures i < 0 ==> IsDigits(IntToString(i)[1..]) && DigitsValue(IntToString(i)[1..]) == -i
  {
    if i < 0 {
      var digits := NatToString(-i);
      assert IntToString(i) == "-" + digits;
      assert IntToString(i)[1..] == digits;
      NatToStringValue(-i);
    } else {
      NatToStringValue(i);
    }
  }

  /** Regrouping a concatenation of three and of four strings. */
  lemma ConcatAssoc3(a: string, b: string, c: string)
    ensures a + b + c == a + (b + c)
  {
  }

  lemma ConcatAssoc4(a: string, b: string, c: string, d: string)
    ensures a + b + c + d == a + (b + c + d)
  {
  }
}
