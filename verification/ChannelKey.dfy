/** The composite key under which the router remembers that a channel of a call has ended. */
module ChannelKey {

  function Digit(d: nat): char
    requires d < 10
  {
    ('0' as int + d) as char
  }

  function Digits(n: nat): string {
    if n < 10 then [Digit(n)] else Digits(n / 10) + [Digit(n % 10)]
  }

  /** The text of an integer, as a cast from int32 to rstring writes it. */
  function Decimal(n: int): string {
    if n < 0 then "-" + Digits(-n) else Digits(n)
  }

  function Key(session: string, channel: int): string {
    session + "_" + Decimal(channel)
  }

  lemma {:induction false} DigitsOnly(n: nat)
    ensures |Digits(n)| > 0
    ensures forall i :: 0 <= i < |Digits(n)| ==> '0' <= Digits(n)[i] <= '9'
  {
    if n >= 10 {
      DigitsOnly(n / 10);
    }
  }

  lemma LastDigit(n: nat)
    ensures |Digits(n)| > 0 && Digits(n)[|Digits(n)| - 1] == Digit(n % 10)
    ensures n < 10 <==> |Digits(n)| == 1
    ensures n >= 10 ==> Digits(n)[..|Digits(n)| - 1] == Digits(n / 10)
  {
    DigitsOnly(n / 10);
  }

  lemma {:induction false} DigitsInjective(m: nat, n: nat)
    requires Digits(m) == Digits(n)
    ensures m == n
  {
    LastDigit(m);
    LastDigit(n);
    if m >= 10 && n >= 10 {
      DigitsInjective(m / 10, n / 10);
    }
  }

  lemma DecimalHasNoSeparator(n: int)
    ensures '_' !in Decimal(n)
  {
    DigitsOnly(if n < 0 then -n else n);
  }

  lemma DecimalInjective(m: int, n: int)
    requires Decimal(m) == Decimal(n)
    ensures m == n
  {
    DigitsOnly(if m < 0 then -m else m);
    DigitsOnly(if n < 0 then -n else n);
    assert m < 0 <==> Decimal(m)[0] == '-';
    assert n < 0 <==> Decimal(n)[0] == '-';
    if m < 0 {
      assert Digits(-m) == Decimal(m)[1..] == Decimal(n)[1..] == Digits(-n);
      DigitsInjective(-m, -n);
    } else {
      DigitsInjective(m, n);
    }
  }

  /** A later separator would lie inside the channel text, so the longer session cannot exist. */
  lemma SessionNotLonger(s1: string, c1: int, s2: string, c2: int)
    requires Key(s1, c1) == Key(s2, c2)
    ensures |s1| <= |s2|
  {
    if |s1| > |s2| {
      var key := Key(s1, c1);
      assert key[|s1|] == '_';
      assert Key(s2, c2)[|s1|] == Decimal(c2)[|s1| - |s2| - 1];
      DecimalHasNoSeparator(c2);
      assert false;
    }
  }

  /** The key is injective for arbitrary session strings, those with separators or digits included. */
  lemma KeyInjective(s1: string, c1: int, s2: string, c2: int)
    ensures Key(s1, c1) == Key(s2, c2) <==> s1 == s2 && c1 == c2
  {
    if Key(s1, c1) == Key(s2, c2) {
      SessionNotLonger(s1, c1, s2, c2);
      SessionNotLonger(s2, c2, s1, c1);
      assert s1 == Key(s1, c1)[..|s1|] == Key(s2, c2)[..|s2|] == s2;
      assert Decimal(c1) == Key(s1, c1)[|s1| + 1..] == Key(s2, c2)[|s2| + 1..] == Decimal(c2);
      DecimalInjective(c1, c2);
    }
  }
}
