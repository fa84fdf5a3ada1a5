/**
 * What both client forms do with an amount typed as text: `Number(...)`
 * (NaN is `None`), the sign rule `type === "expense" ? -Math.abs(x) : Math.abs(x)`,
 * and `Math.abs(x).toString()` when an amount is put back into a form.
 */
module ClientAmount {
  import opened Wrappers
  import opened Text

  predicate IsDigit(c: char) {
    '0' <= c <= '9'
  }

  predicate AllDigits(s: string) {
    forall i :: 0 <= i < |s| ==> IsDigit(s[i])
  }

  function DigitValue(c: char): nat
    requires IsDigit(c)
  {
    c as int - '0' as int
  }

  function DigitChar(d: nat): (c: char)
    requires d < 10
    ensures IsDigit(c) && DigitValue(c) == d
  {
    ('0' as int + d) as char
  }

  /** The value of a run of decimal digits, most significant first. */
  function DigitsValue(s: string): nat
    requires AllDigits(s)
  {
    if s == [] then 0 else DigitsValue(s[..|s| - 1]) * 10 + DigitValue(s[|s| - 1])
  }

  function ParseDigits(s: string): (r: Option<nat>)
    ensures r.Some? <==> s != [] && AllDigits(s)
  {
    if s != [] && AllDigits(s) then Some(DigitsValue(s)) else None
  }

  /** An optional sign followed by one or more decimal digits. */
  predicate IsNumeral(t: string) {
    if t != [] && (t[0] == '-' || t[0] == '+') then |t| > 1 && AllDigits(t[1..])
    else t != [] && AllDigits(t)
  }

  /** The value an optional sign and digits denote. */
  function NumeralValue(t: string): int
    requires IsNumeral(t)
  {
    if t[0] == '-' then -(DigitsValue(t[1..]) as int)
    else if t[0] == '+' then DigitsValue(t[1..])
    else DigitsValue(t)
  }

  /**
   * `Number(s)` on the inputs this model admits: white space around the text is
   * ignored, blank text is 0, then an optional sign and decimal digits; every
   * other text is NaN.
   */
  function ParseNumber(s: string): (r: Option<int>)
    ensures Trim(s) == "" ==> r == Some(0)
    ensures r.None? <==> Trim(s) != "" && !IsNumeral(Trim(s))
    ensures IsNumeral(Trim(s)) ==> r == Some(NumeralValue(Trim(s)))
    ensures Trim(s) != "" && AllDigits(Trim(s)) ==> r == Some(DigitsValue(Trim(s)))
  {
    var t := Trim(s);
    if t == [] then Some(0)
    else if t[0] == '-' then
      match ParseDigits(t[1..])
      case Some(n) => Some(-(n as int))
      case None => None
    else if t[0] == '+' then
      match ParseDigits(t[1..])
      case Some(n) => Some(n)
      case None => None
    else
      match ParseDigits(t)
      case Some(n) => Some(n)
      case None => None
  }

  /** `n.toString()` for a non-negative integer: decimal digits, no leading zero. */
  function Show(n: nat): (s: string)
    ensures s != [] && AllDigits(s)
    ensures |s| > 1 ==> s[0] != '0'
  {
    if n < 10 then [DigitChar(n)] else Show(n / 10) + [DigitChar(n % 10)]
  }

  lemma {:induction false} DigitsValueShow(n: nat)
    ensures DigitsValue(Show(n)) == n
  {
    if n >= 10 {
      var s := Show(n);
      assert s[..|s| - 1] == Show(n / 10);
      DigitsValueShow(n / 10);
    }
  }

  /** Reading back a printed amount gives the amount: `Number(String(n)) === n`. */
  lemma ParseShow(n: nat)
    ensures ParseNumber(Show(n)) == Some(n)
  {
    var s := Show(n);
    assert !IsSpace(s[0]) && !IsSpace(s[|s| - 1]);
    assert Trim(s) == s;
    DigitsValueShow(n);
  }

  function Abs(x: int): nat {
    if x < 0 then -x else x
  }

  /**
   * The sign rule: an expense is sent as minus the magnitude, anything else as
   * the magnitude. The magnitude is kept, and applying the rule again changes nothing.
   */
  function SignedAmount(txType: string, x: int): (r: int)
    ensures Abs(r) == Abs(x)
    ensures txType == "expense" ==> r <= 0
    ensures txType != "expense" ==> r >= 0
  {
    if txType == "expense" then -(Abs(x) as int) else Abs(x)
  }

  lemma SignedAmountIdempotent(txType: string, x: int)
    ensures SignedAmount(txType, SignedAmount(txType, x)) == SignedAmount(txType, x)
  {
  }

  /** A signed amount that already follows the rule for its type is recovered from its magnitude. */
  lemma SignedAmountOfAbs(txType: string, x: int)
    requires if txType == "expense" then x <= 0 else x >= 0
    ensures SignedAmount(txType, Abs(x)) == x
  {
  }
}
