/**
 * Invocation ids. The connection keeps an integer counter, increments it for
 * every tracked call and uses the decimal text of the new value as the call's
 * id, so the ids handed out are "1", "2", "3", ... in call order.
 */
module InvocationIds {

  predicate IsDigit(c: char) {
    '0' <= c <= '9'
  }

  function DigitChar(d: nat): (c: char)
    requires d < 10
    ensures IsDigit(c)
  {
    (('0' as int) + d) as char
  }

  function DigitValue(c: char): (d: nat)
    requires IsDigit(c)
    ensures d < 10
  {
    (c as int) - ('0' as int)
  }

  /** The decimal text of n, as string interpolation of an integer renders it. */
  function DecimalString(n: nat): (s: string)
    ensures |s| >= 1
    ensures forall i | 0 <= i < |s| :: IsDigit(s[i])
    ensures s[0] == '0' ==> n == 0
    decreases n
  {
    if n < 10 then [DigitChar(n)] else DecimalString(n / 10) + [DigitChar(n % 10)]
  }

  /** Reads a string of decimal digits back as a number. */
  function ParseDecimal(s: string): nat
    requires forall i | 0 <= i < |s| :: IsDigit(s[i])
    decreases |s|
  {
    if s == [] then 0 else ParseDecimal(s[..|s| - 1]) * 10 + DigitValue(s[|s| - 1])
  }

  /** Reading the decimal text of n gives n back. */
  lemma {:induction false} ParseDecimalInverse(n: nat)
    ensures ParseDecimal(DecimalString(n)) == n
    decreases n
  {
    if n >= 10 {
      var prefix, last := DecimalString(n / 10), DigitChar(n % 10);
      assert (prefix + [last])[..|prefix|] == prefix;
      ParseDecimalInverse(n / 10);
    }
  }

  /** Distinct counter values render as distinct ids. */
  lemma DecimalStringInjective(a: nat, b: nat)
    ensures DecimalString(a) == DecimalString(b) <==> a == b
  {
    ParseDecimalInverse(a);
    ParseDecimalInverse(b);
  }
}
