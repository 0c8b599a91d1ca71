/** The decimal text JavaScript gives a non-negative integer, as
    `String(n)`, a template literal or a property key does. */
module Numbers {

  function Digit(d: nat): (c: char)
    requires d < 10
    ensures '0' <= c <= '9'
  {
    ('0' as int + d) as char
  }

  predicate AllDigits(s: string)
  {
    forall i :: 0 <= i < |s| ==> '0' <= s[i] <= '9'
  }

  /** Decimal digits, most significant first, with no leading zero. */
  function NumberToString(n: nat): (s: string)
    ensures |s| >= 1 && AllDigits(s)
    ensures n > 0 ==> s[0] != '0'
    ensures n >= 10 ==> |s| >= 2
  {
    if n < 10 then [Digit(n)] else NumberToString(n / 10) + [Digit(n % 10)]
  }

  /** The number a run of decimal digits denotes. */
  function DigitsValue(s: string): (n: nat)
    requires AllDigits(s)
  {
    if s == [] then 0 else DigitsValue(s[..|s| - 1]) * 10 + (s[|s| - 1] as int - '0' as int)
  }

  /** The text of `n` denotes `n`. */
  lemma {:induction false} NumberToStringValue(n: nat)
    ensures DigitsValue(NumberToString(n)) == n
  {
    var s := NumberToString(n);
    if n >= 10 {
      assert s[..|s| - 1] == NumberToString(n / 10);
      NumberToStringValue(n / 10);
    } else {
      assert s[..|s| - 1] == [];
    }
  }

  /** Distinct numbers have distinct texts, so keying by the text is keying
      by the number. */
  lemma {:induction false} NumberToStringInjective(a: nat, b: nat)
    requires NumberToString(a) == NumberToString(b)
    ensures a == b
  {
    var s := NumberToString(a);
    if a >= 10 && b >= 10 {
      assert s[|s| - 1] == Digit(a % 10) == Digit(b % 10);
      assert s[..|s| - 1] == NumberToString(a / 10) == NumberToString(b / 10);
      NumberToStringInjective(a / 10, b / 10);
    } else if a < 10 && b < 10 {
      assert s[0] == Digit(a) == Digit(b);
    }
  }
}
