/** Decimal numerals: `Integer.toString` (what `println` prints for an `int`)
    and `Integer.parseInt` over ASCII digits. */
module Numeral {
  import opened JavaInt
  import opened Wrappers

  predicate IsDigit(ch: char) { '0' <= ch <= '9' }

  predicate AllDigits(s: string) { forall k :: 0 <= k < |s| ==> IsDigit(s[k]) }

  function DigitValue(ch: char): nat
    requires IsDigit(ch)
  {
    (ch as int) - ('0' as int)
  }

  function DigitChar(d: nat): (ch: char)
    requires d < 10
    ensures IsDigit(ch) && DigitValue(ch) == d
  {
    ('0' as int + d) as char
  }

  /** The value of a string of decimal digits, most significant first. */
  function DigitsValue(s: string): nat
    requires AllDigits(s)
  {
    if s == [] then 0 else 10 * DigitsValue(s[..|s| - 1]) + DigitValue(s[|s| - 1])
  }

  /** The shortest decimal spelling of `n` (no leading zero unless `n` is
      0); reading it back gives `n`. */
  function Digits(n: nat): (s: string)
    ensures 1 <= |s| && AllDigits(s)
    ensures DigitsValue(s) == n
    ensures s[0] == '0' ==> n == 0
    decreases n
  {
    if n < 10 then [DigitChar(n)]
    else
      var prefix := Digits(n / 10);
      var s := prefix + [DigitChar(n % 10)];
      assert s[..|s| - 1] == prefix;
      s
  }

  /** `Integer.toString(n)`: a `-` exactly for a negative `n`, then the
      digits of `|n|`. */
  function Show(n: int): (r: string)
    ensures 1 <= |r| && (r[0] == '-' <==> n < 0)
    ensures n < 0 ==> 2 <= |r| && AllDigits(r[1..]) && DigitsValue(r[1..]) == -n
    ensures n >= 0 ==> AllDigits(r) && DigitsValue(r) == n
    ensures var d := if n < 0 then r[1..] else r; d[0] == '0' ==> n == 0
  {
    if n < 0 then "-" + Digits(-n) else Digits(n)
  }

  /** `Integer.parseInt(s)`: an optional `-` or `+` sign and at least one
      digit, whose value must lie in the `int` range; anything else is a
      `NumberFormatException`, here `None`. */
  function ParseInt(s: string): (r: Option<Int32>)
    ensures r.Some? ==> 1 <= |s| && ((s[0] == '-' || s[0] == '+') ==> 2 <= |s|)
                        && AllDigits(if s[0] == '-' || s[0] == '+' then s[1..] else s)
    ensures 2 <= |s| && s[0] == '-' && AllDigits(s[1..])
            ==> r == (if DigitsValue(s[1..]) <= IntMax + 1 then Some(-(DigitsValue(s[1..]) as int)) else None)
    ensures 2 <= |s| && s[0] == '+' && AllDigits(s[1..])
            ==> r == (if DigitsValue(s[1..]) <= IntMax then Some(DigitsValue(s[1..])) else None)
  {
    if |s| == 0 then None
    else if s[0] == '-' || s[0] == '+' then
      var body := s[1..];
      if |body| == 0 || !AllDigits(body) then None
      else
        var d: int := DigitsValue(body);
        var v := if s[0] == '-' then -d else d;
        if InRange(v) then Some(v) else None
    else if !AllDigits(s) then None
    else if DigitsValue(s) <= IntMax then Some(DigitsValue(s)) else None
  }

  /** Printing an `int` and parsing the printed text gives the `int` back. */
  lemma ParseShow(n: Int32)
    ensures ParseInt(Show(n)) == Some(n)
  {
    var m: int := n;
    var s := Show(m);
    if m < 0 {
      assert s[1..] == Digits(-m);
    } else {
      assert s == Digits(m);
      ParseDigits(s);
      assert DigitsValue(s) == m;

    }
  }

  /** A digit string parses exactly when its value fits in an `int`. */
  lemma ParseDigits(s: string)
    requires 1 <= |s| && AllDigits(s)
    ensures ParseInt(s) == (if DigitsValue(s) <= IntMax then Some(DigitsValue(s)) else None)
  {
    assert IsDigit(s[0]);
  }
}
