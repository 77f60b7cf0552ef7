/** Zero-padded decimals, as the format specification `0<w>d` writes them, and reading them back. */
module Text {

  function Pow10(w: nat): nat {
    if w == 0 then 1 else 10 * Pow10(w - 1)
  }

  function Digit(d: nat): char
    requires d < 10
  {
    "0123456789"[d]
  }

  function Zeros(w: nat): string {
    if w == 0 then "" else Zeros(w - 1) + "0"
  }

  /** At least `w` digits; more when the number needs them. */
  function Padded(n: nat, w: nat): string {
    var inner := if w == 0 then 0 else w - 1;
    if n < 10 then Zeros(inner) + [Digit(n)] else Padded(n / 10, inner) + [Digit(n % 10)]
  }

  function DigitValue(c: char): nat {
    if '0' <= c <= '9' then (c - '0') as nat else 0
  }

  function Value(s: string): nat {
    if s == "" then 0 else 10 * Value(s[..|s| - 1]) + DigitValue(s[|s| - 1])
  }

  lemma {:induction false} ValueAppend(s: string, d: nat)
    requires d < 10
    ensures Value(s + [Digit(d)]) == 10 * Value(s) + d
  {
    assert (s + [Digit(d)])[..|s|] == s;
  }

  lemma {:induction false} ZerosAreZero(w: nat)
    ensures Value(Zeros(w)) == 0 && |Zeros(w)| == w
  {
    if w > 0 {
      ZerosAreZero(w - 1);
      ValueAppend(Zeros(w - 1), 0);
    }
  }

  /** Reading a padded number gives the number back, so no two numbers are written alike. */
  lemma {:induction false} PaddedRoundTrip(n: nat, w: nat)
    ensures Value(Padded(n, w)) == n
  {
    var inner := if w == 0 then 0 else w - 1;
    if n < 10 {
      ZerosAreZero(inner);
      ValueAppend(Zeros(inner), n);
    } else {
      PaddedRoundTrip(n / 10, inner);
      ValueAppend(Padded(n / 10, inner), n % 10);
    }
  }

  /** A number that fits the width has exactly that width. */
  lemma {:induction false} PaddedWidth(n: nat, w: nat)
    requires w >= 1 && n < Pow10(w)
    ensures |Padded(n, w)| == w
  {
    if n < 10 {
      ZerosAreZero(w - 1);
    } else {
      PaddedWidth(n / 10, w - 1);
    }
  }

  lemma {:induction false} PaddedInjective(m: nat, n: nat, w: nat)
    requires Padded(m, w) == Padded(n, w)
    ensures m == n
  {
    PaddedRoundTrip(m, w);
    PaddedRoundTrip(n, w);
  }

  ghost predicate AllDigits(s: string) { forall i :: 0 <= i < |s| ==> '0' <= s[i] <= '9' }

  lemma {:induction false} ZerosAreDigits(w: nat)
    ensures AllDigits(Zeros(w))
  {
    if w > 0 {
      ZerosAreDigits(w - 1);
    }
  }

  lemma {:induction false} PaddedIsDigits(n: nat, w: nat)
    ensures AllDigits(Padded(n, w))
  {
    var inner := if w == 0 then 0 else w - 1;
    if n < 10 {
      ZerosAreDigits(inner);
    } else {
      PaddedIsDigits(n / 10, inner);
    }
  }
}
