/** The two conversions between numbers and strings the user form relies
    on: `String(id)` for an integral id (the value of a role's radio
    button) and `Number(s)` for the selected value. Only integral numbers
    are represented; `None` stands for NaN. */
module JsNumbers {
  import opened JsValues
  import opened JsStrings

  predicate IsDigit(c: char) {
    '0' <= c <= '9'
  }

  predicate AllDigits(s: string) {
    forall i :: 0 <= i < |s| ==> IsDigit(s[i])
  }

  function DigitChar(d: int): (c: char)
    requires 0 <= d < 10
    ensures IsDigit(c)
  {
    ('0' as int + d) as char
  }

  function DigitValue(c: char): (d: int)
    requires IsDigit(c)
    ensures 0 <= d < 10
  {
    c as int - '0' as int
  }

  /** The decimal digits of `n`, most significant first, without leading zeros. */
  function NatToString(n: nat): (s: string)
    ensures |s| > 0 && AllDigits(s)
    decreases n
  {
    if n < 10 then [DigitChar(n)] else NatToString(n / 10) + [DigitChar(n % 10)]
  }

  /** `String(i)` for an integral number: a minus sign for a negative one. */
  function IntToString(i: int): (s: string)
    ensures |s| > 0
    ensures i >= 0 ==> AllDigits(s)
    ensures i < 0 ==> s[0] == '-' && |s| > 1 && AllDigits(s[1..])
  {
    if i < 0 then "-" + NatToString(-i) else NatToString(i)
  }

  /** The value of a non-empty run of decimal digits. */
  function DigitsValue(s: string): nat
    requires AllDigits(s)
    decreases |s|
  {
    if s == [] then 0 else DigitsValue(s[..|s| - 1]) * 10 + DigitValue(s[|s| - 1])
  }

  /** `Number(s)` restricted to the integral decimal literals: the string is
      trimmed, the empty string is 0, an optional sign may precede the
      digits; anything else is NaN. */
  function ToNumber(s: string): (r: Option<int>)
    ensures Trim(s) == "" ==> r == Some(0)
  {
    var t := Trim(s);
    if t == [] then Some(0)
    else if (t[0] == '-' || t[0] == '+') && |t| > 1 && AllDigits(t[1..]) then
      Some(if t[0] == '-' then 0 - DigitsValue(t[1..]) as int else DigitsValue(t[1..]))
    else if AllDigits(t) then Some(DigitsValue(t))
    else None
  }

  lemma {:induction false} DigitsValueOfNatToString(n: nat)
    ensures DigitsValue(NatToString(n)) == n
    decreases n
  {
    var s := NatToString(n);
    if n < 10 {
      assert s[..|s| - 1] == [];
    } else {
      DigitsValueOfNatToString(n / 10);
      assert s[..|s| - 1] == NatToString(n / 10);
    }
  }

  /** Reading back a printed natural number gives it again. */
  lemma ToNumberOfNatToString(n: nat)
    ensures ToNumber(NatToString(n)) == Some(n)
  {
    var s := NatToString(n);
    assert IsDigit(s[0]) && IsDigit(s[|s| - 1]);
    TrimOfTrimmed(s);
    assert s[0] != '-' && s[0] != '+';
    DigitsValueOfNatToString(n);
  }

  /** A minus sign followed by digits reads as the negated digits. */
  lemma ToNumberOfMinusDigits(s: string, d: string)
    requires |d| > 0 && AllDigits(d) && s == "-" + d
    ensures ToNumber(s) == Some(0 - DigitsValue(d) as int)
  {
    assert s[0] == '-' && s[1..] == d && s[|s| - 1] == d[|d| - 1];
    assert IsDigit(d[|d| - 1]);
    TrimOfTrimmed(s);
  }

  /** Reading back a printed negative number gives it again. */
  lemma ToNumberOfNegative(i: int)
    requires i < 0
    ensures ToNumber(IntToString(i)) == Some(i)
  {
    var n: nat := -i;
    var d := NatToString(n);
    DigitsValueOfNatToString(n);
    ToNumberOfMinusDigits(IntToString(i), d);
  }

  /** Reading back what `String(i)` printed gives `i` again. */
  lemma ToNumberOfIntToString(i: int)
    ensures ToNumber(IntToString(i)) == Some(i)
  {
    if i < 0 {
      ToNumberOfNegative(i);
    } else {
      ToNumberOfNatToString(i);
    }
  }
}
