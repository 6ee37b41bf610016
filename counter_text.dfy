/**
 * The "position / total" counter text that the lightbox and the mobile carousel
 * write into their counter elements (a template literal over two integers).
 * Integers are rendered in decimal without leading zeros, as JavaScript does for
 * non-negative integer numbers, and the text can be read back.
 */
module CounterText {
  import opened Wrappers

  predicate IsDigit(c: char) {
    '0' <= c <= '9'
  }

  predicate AllDigits(s: string) {
    forall i :: 0 <= i < |s| ==> IsDigit(s[i])
  }

  function DigitChar(d: nat): (c: char)
    requires d < 10
    ensures IsDigit(c) && DigitValue(c) == d
  {
    ('0' as int + d) as char
  }

  function DigitValue(c: char): nat
    requires IsDigit(c)
  {
    c as int - '0' as int
  }

  /** Decimal rendering of a natural number, as `${n}` produces it. */
  function Digits(n: nat): (s: string)
    ensures |s| > 0 && AllDigits(s)
    ensures (s[0] == '0') == (n == 0)
    decreases n
  {
    if n < 10 then [DigitChar(n)] else Digits(n / 10) + [DigitChar(n % 10)]
  }

  /** The value of a string of decimal digits. */
  function ParseDigits(s: string): nat
    requires AllDigits(s)
  {
    if |s| == 0 then 0 else ParseDigits(s[..|s| - 1]) * 10 + DigitValue(s[|s| - 1])
  }

  lemma {:induction false} ParseDigitsOfDigits(n: nat)
    ensures ParseDigits(Digits(n)) == n
    decreases n
  {
    if n >= 10 {
      var s := Digits(n);
      assert s[..|s| - 1] == Digits(n / 10);
      ParseDigitsOfDigits(n / 10);
    }
  }

  /** The counter text `${position} / ${total}`. */
  function Counter(position: nat, total: nat): (s: string)
    ensures var k := |Digits(position)|;
      k > 0 && |s| > k + 3 && AllDigits(s[..k]) && s[k..k + 3] == " / " && AllDigits(s[k + 3..])
  {
    Digits(position) + " / " + Digits(total)
  }

  /** Index of the first character that is not a digit, or |s| if there is none. */
  function FirstNonDigit(s: string): (k: nat)
    ensures k <= |s|
    ensures forall i :: 0 <= i < k ==> IsDigit(s[i])
    ensures k < |s| ==> !IsDigit(s[k])
  {
    if |s| == 0 || !IsDigit(s[0]) then 0 else 1 + FirstNonDigit(s[1..])
  }

  /** Reads a counter text back into its two numbers. */
  function ParseCounter(s: string): Option<(nat, nat)> {
    var k := FirstNonDigit(s);
    if 0 < k && k + 3 < |s| && s[k..k + 3] == " / " && AllDigits(s[k + 3..]) then
      Some((ParseDigits(s[..k]), ParseDigits(s[k + 3..])))
    else
      None
  }

  /** The counter text determines the position and total it was built from. */
  lemma CounterRoundTrip(position: nat, total: nat)
    ensures ParseCounter(Counter(position, total)) == Some((position, total))
  {
    var a, b := Digits(position), Digits(total);
    var s := Counter(position, total);
    assert s == a + " / " + b;
    var k := FirstNonDigit(s);
    assert s[|a|] == ' ';
    assert k == |a|;
    assert s[..k] == a;
    assert s[k..k + 3] == " / ";
    assert s[k + 3..] == b;
    ParseDigitsOfDigits(position);
    ParseDigitsOfDigits(total);
  }

  /** Different positions or totals never render to the same counter text. */
  lemma CounterInjective(p1: nat, t1: nat, p2: nat, t2: nat)
    requires Counter(p1, t1) == Counter(p2, t2)
    ensures p1 == p2 && t1 == t2
  {
    CounterRoundTrip(p1, t1);
    CounterRoundTrip(p2, t2);
  }
}
