/** The two pieces of Python text handling the handlers rely on:
    `str(n)` of an integer and `sep.join(parts)`. */
module Text {

  /** The ASCII digit character of `d`. */
  function DigitChar(d: nat): char
    requires d < 10
  {
    (48 + d) as char
  }

  predicate IsDigit(c: char) {
    '0' <= c <= '9'
  }

  /** Python's `str(n)` for `n >= 0`: decimal digits, no sign, no leading zero. */
  function NatDecimal(n: nat): (r: string)
    ensures |r| >= 1
    ensures forall i | 0 <= i < |r| :: IsDigit(r[i])
    ensures n >= 10 ==> |r| >= 2
    ensures r[0] == '0' ==> n == 0
  {
    if n < 10 then [DigitChar(n)] else NatDecimal(n / 10) + [DigitChar(n % 10)]
  }

  /** Python's `str(n)` for any integer: a leading `-` for negative numbers. */
  function Decimal(n: int): (r: string)
    ensures |r| >= 1
    ensures r[0] == '-' <==> n < 0
  {
    if n < 0 then "-" + NatDecimal(-n) else NatDecimal(n)
  }

  lemma {:induction false} NatDecimalInjective(a: nat, b: nat)
    requires NatDecimal(a) == NatDecimal(b)
    ensures a == b
  {
    var sa, sb := NatDecimal(a), NatDecimal(b);
    if a >= 10 && b >= 10 {
      assert sa[|sa| - 1] == sb[|sb| - 1];
      assert a % 10 == b % 10;
      assert sa[..|sa| - 1] == NatDecimal(a / 10);
      assert sb[..|sb| - 1] == NatDecimal(b / 10);
      NatDecimalInjective(a / 10, b / 10);
    } else if a < 10 && b < 10 {
      assert sa[0] == sb[0];
    }
  }

  /** `str` is injective on integers, so keying a dictionary by `str(id)`
      gives each integer id its own key. */
  lemma DecimalInjective(a: int, b: int)
    requires Decimal(a) == Decimal(b)
    ensures a == b
  {
    if a < 0 && b < 0 {
      assert NatDecimal(-a) == Decimal(a)[1..] == Decimal(b)[1..] == NatDecimal(-b);
      NatDecimalInjective(-a, -b);
    } else if a >= 0 && b >= 0 {
      NatDecimalInjective(a, b);
    }
  }

  /** Python's `sep.join(parts)`. */
  function Join(sep: string, parts: seq<string>): (r: string)
    ensures |parts| == 1 ==> r == parts[0]
    decreases |parts|
  {
    if |parts| == 0 then ""
    else if |parts| == 1 then parts[0]
    else Join(sep, parts[..|parts| - 1]) + sep + parts[|parts| - 1]
  }

  /** Joining from the front: the first part, one separator, then the join of
      the rest. Together with the definition, which joins from the back, it
      says every pair of neighbouring parts is split by exactly one separator. */
  lemma {:induction false} JoinCons(sep: string, a: string, rest: seq<string>)
    requires rest != []
    ensures Join(sep, [a] + rest) == a + sep + Join(sep, rest)
    decreases |rest|
  {
    var s := [a] + rest;
    if |rest| >= 2 {
      var init := rest[..|rest| - 1];
      var last := rest[|rest| - 1];
      assert s[..|s| - 1] == [a] + init;
      assert s[|s| - 1] == last;
      JoinCons(sep, a, init);
      calc {
        Join(sep, s);
        Join(sep, [a] + init) + sep + last;
        (a + sep + Join(sep, init)) + sep + last;
        { assert (a + sep + Join(sep, init)) + sep + last == a + sep + (Join(sep, init) + sep + last); }
        a + sep + (Join(sep, init) + sep + last);
        a + sep + Join(sep, rest);
      }
    } else {
      assert s[..1] == [a];
    }
  }

  /** A join of non-empty parts is empty exactly when there are no parts. */
  lemma {:induction false} JoinEmptyIff(sep: string, parts: seq<string>)
    requires forall i | 0 <= i < |parts| :: parts[i] != ""
    ensures Join(sep, parts) == "" <==> parts == []
  {
    if |parts| >= 2 {
      var last := parts[|parts| - 1];
      assert |Join(sep, parts)| >= |last| > 0;
    }
  }
}
