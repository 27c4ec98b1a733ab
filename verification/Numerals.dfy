/** Zero-padded decimal numerals. */
module Numerals {
  import opened Enums

  function Digit(n: nat): char
    requires n < 10
  {
    '0' + n as char
  }

  /** `n` in decimal, padded with zeros to at least `width` characters. */
  function Padded(n: nat, width: nat): string {
    if n == 0 && width == 0 then ""
    else Padded(n / 10, if width == 0 then 0 else width - 1) + [Digit(n % 10)]
  }

  /** Different numbers have different numerals. */
  lemma {:induction false} PaddedIsInjective(m: nat, n: nat, width: nat)
    requires Padded(m, width) == Padded(n, width)
    ensures m == n
    decreases m + n + width
  {
    if (m == 0 && width == 0) || (n == 0 && width == 0) {
    } else {
      var w := if width == 0 then 0 else width - 1;
      var a, b := Padded(m / 10, w), Padded(n / 10, w);
      assert Padded(m, width)[|a|] == Digit(m % 10) && Padded(n, width)[|b|] == Digit(n % 10);
      assert (a + [Digit(m % 10)])[..|a|] == a && (b + [Digit(n % 10)])[..|b|] == b;
      PaddedIsInjective(m / 10, n / 10, w);
    }
  }

  /** The number a run of digits stands for; None where a character is not a digit. */
  function Value(s: string): Option<nat> {
    if s == "" then Some(0)
    else
      var c := s[|s| - 1];
      match Value(s[..|s| - 1])
      case None => None
      case Some(n) => if '0' <= c <= '9' then Some(n * 10 + (c - '0') as nat) else None
  }

  lemma DigitBack(n: nat)
    requires n < 10
    ensures '0' <= Digit(n) <= '9' && (Digit(n) - '0') as nat == n
  {}

  lemma ValueSnoc(before: string, d: nat)
    requires d < 10 && Value(before).Some?
    ensures Value(before + [Digit(d)]) == Some(Value(before).value * 10 + d)
  {
    DigitBack(d);
    assert (before + [Digit(d)])[..|before|] == before;
  }

  /** Reading a numeral gives back the number written. */
  lemma {:induction false} ValueOfPadded(n: nat, width: nat)
    ensures Value(Padded(n, width)) == Some(n)
    decreases n, width
  {
    if n != 0 || width != 0 {
      hide Value;
      ValueOfPadded(n / 10, if width == 0 then 0 else width - 1);
      ValueSnoc(Padded(n / 10, if width == 0 then 0 else width - 1), n % 10);
    }
  }
}
