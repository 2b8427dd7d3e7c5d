/** How the dashboard turns a non-negative integer into text: for integers
    below 2^53, which JavaScript numbers hold exactly and print without an
    exponent, the template interpolation `${n}` and `textContent = n` both
    produce the shortest decimal numeral of `n`. */
module DecimalText {

  predicate IsDigit(c: char) {
    '0' <= c <= '9'
  }

  predicate AllDigits(s: string) {
    forall i :: 0 <= i < |s| ==> IsDigit(s[i])
  }

  /** The numeral character of a single digit. */
  function Digit(d: nat): (c: char)
    requires d < 10
    ensures IsDigit(c) && c as int - '0' as int == d
  {
    ('0' as int + d) as char
  }

  /** The decimal numeral of `n`: at least one digit, and no leading zero;
      zero itself is the single digit "0". */
  function NatToString(n: nat): (s: string)
    ensures |s| >= 1 && AllDigits(s)
    ensures s[0] == '0' ==> n == 0
    ensures |s| == 1 <==> n < 10
    ensures n == 0 ==> s[0] == '0'
    decreases n
  {
    if n < 10 then [Digit(n)] else NatToString(n / 10) + [Digit(n % 10)]
  }

  /** The number a string of digits denotes (the reading direction of a numeral). */
  function DigitsValue(s: string): nat
    requires AllDigits(s)
    decreases |s|
  {
    if s == [] then 0
    else DigitsValue(s[..|s| - 1]) * 10 + (s[|s| - 1] as int - '0' as int)
  }

  /** Reading back the numeral of `n` gives `n`. */
  lemma {:induction false} NatToStringRoundTrip(n: nat)
    ensures DigitsValue(NatToString(n)) == n
    decreases n
  {
    if n >= 10 {
      NatToStringRoundTrip(n / 10);
      var s := NatToString(n / 10);
      var t := s + [Digit(n % 10)];
      assert t[..|t| - 1] == s;
    }
  }

  /** Different numbers have different numerals. */
  lemma NatToStringInjective(a: nat, b: nat)
    ensures NatToString(a) == NatToString(b) <==> a == b
  {
    NatToStringRoundTrip(a);
    NatToStringRoundTrip(b);
  }

  /** Cancelling a common prefix and suffix: the middle parts are then equal. */
  lemma CancelAffixes(p: string, x: string, y: string, q: string)
    requires p + x + q == p + y + q
    ensures x == y
  {
    var u := p + x + q;
    assert |x| == |y|;
    assert x == u[|p|..|p| + |x|];
    assert y == (p + y + q)[|p|..|p| + |y|];
  }

  /** A number followed by a percent sign (`${n}%`): the numeral of `n`, then a
      single '%', which is its only non-digit. */
  function PercentText(n: nat): (t: string)
    ensures |t| >= 2 && t[|t| - 1] == '%'
    ensures t[..|t| - 1] == NatToString(n) && AllDigits(t[..|t| - 1])
  {
    var t := NatToString(n) + "%";
    assert t[..|t| - 1] == NatToString(n);
    t
  }

  /** The percent text ends in '%', and the text before it is the numeral of
      `n`, which reads back as `n`. */
  lemma PercentTextReadsBack(n: nat)
    ensures var t := PercentText(n);
      && |t| >= 2 && t[|t| - 1] == '%'
      && t[..|t| - 1] == NatToString(n)
      && AllDigits(t[..|t| - 1]) && DigitsValue(t[..|t| - 1]) == n
  {
    var t := PercentText(n);
    assert t[..|t| - 1] == NatToString(n);
    NatToStringRoundTrip(n);
  }
}
