/**
 * PHP's loose `==` between two strings, as a `switch` statement compares: two numeric
 * strings are compared as numbers, any other pair as strings. Only plain decimal strings
 * (digits with at most one '.') are read as numbers here.
 */
module PhpNumbers {
  import opened Wrappers

  /** A decimal digit. */
  predicate IsDigit(c: char) {
    '0' <= c <= '9'
  }

  predicate AllDigits(s: string) {
    forall i :: 0 <= i < |s| ==> IsDigit(s[i])
  }

  /** The value of a decimal digit. */
  function DigitValue(c: char): (v: nat)
    ensures v < 10
  {
    if IsDigit(c) then c as int - '0' as int else 0
  }

  /** The value of a run of decimal digits, most significant first; no digits read as 0. */
  function DigitsValue(s: string): nat {
    if s == [] then 0 else 10 * DigitsValue(s[..|s| - 1]) + DigitValue(s[|s| - 1])
  }

  function Pow10(n: nat): (p: nat)
    ensures p > 0
  {
    if n == 0 then 1 else 10 * Pow10(n - 1)
  }

  /** The number `digits / 10^scale`. */
  datatype Decimal = Decimal(digits: nat, scale: nat)

  predicate SameNumber(x: Decimal, y: Decimal) {
    x.digits * Pow10(y.scale) == y.digits * Pow10(x.scale)
  }

  /** The position of the first '.' in s, or |s| when there is none. */
  function DotAt(s: string): (i: nat)
    ensures i <= |s|
    ensures i < |s| ==> s[i] == '.'
  {
    if s == [] || s[0] == '.' then 0 else 1 + DotAt(s[1..])
  }

  /** The part of s before its first '.', all of s when there is none. */
  function Whole(s: string): string {
    s[..DotAt(s)]
  }

  /** The part of s after its first '.', nothing when there is none. */
  function Frac(s: string): string {
    if DotAt(s) < |s| then s[DotAt(s) + 1..] else ""
  }

  /**
   * The number a plain decimal numeric string stands for: digits, at most one '.', and at
   * least one digit ("310", "310.5", ".5", "5."). None for any other string.
   */
  function DecimalValue(s: string): (d: Option<Decimal>)
    ensures d.Some? ==> 0 < |s| && d.value.scale < |s|
  {
    if AllDigits(Whole(s)) && AllDigits(Frac(s)) && 0 < |Whole(s)| + |Frac(s)| then
      Some(Decimal(DigitsValue(Whole(s) + Frac(s)), |Frac(s)|))
    else None
  }

  /**
   * PHP's loose `==` on two strings, as `switch` uses it: two numeric strings are equal when
   * they stand for the same number, any other pair when the strings are equal.
   */
  predicate LooseEquals(s: string, t: string)
    ensures s == t ==> LooseEquals(s, t)
  {
    match (DecimalValue(s), DecimalValue(t))
    case (Some(x), Some(y)) => SameNumber(x, y)
    case _ => s == t
  }

  /** Loose equality does not depend on the order of its operands. */
  lemma LooseEqualsSymmetric(s: string, t: string)
    ensures LooseEquals(s, t) <==> LooseEquals(t, s)
  {
  }

  /** Appending a digit multiplies the value by ten and adds the digit. */
  lemma DigitsValueSnoc(s: string, c: char)
    ensures DigitsValue(s + [c]) == 10 * DigitsValue(s) + DigitValue(c)
  {
    assert (s + [c])[..|s|] == s;
  }

}
