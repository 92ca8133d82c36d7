/** Decimal digit strings, with their numeric value and order. */
module Digits {
  import opened Prelude

  predicate IsDigit(c: char) { '0' <= c <= '9' }

  predicate AllDigits(s: string) { forall i :: 0 <= i < |s| ==> IsDigit(s[i]) }

  function Digit(d: int): (c: char)
    requires 0 <= d < 10
    ensures IsDigit(c) && c as int == '0' as int + d
  {
    ('0' as int + d) as char
  }

  /** The number a digit string denotes. */
  function ValueOf(s: string): nat
    requires AllDigits(s)
  {
    if s == "" then 0 else ValueOf(s[..|s| - 1]) * 10 + (s[|s| - 1] as int - '0' as int)
  }

  function Pow10(n: nat): (p: nat)
    ensures p > 0
  {
    if n == 0 then 1 else 10 * Pow10(n - 1)
  }

  /** `n` in exactly `width` digits, zero-padded on the left. */
  function Padded(width: nat, n: nat): (s: string)
    requires n < Pow10(width)
    ensures |s| == width && AllDigits(s)
  {
    if width == 0 then "" else Padded(width - 1, n / 10) + [Digit(n % 10)]
  }

  lemma {:induction false} ValueOfPadded(width: nat, n: nat)
    requires n < Pow10(width)
    ensures ValueOf(Padded(width, n)) == n
  {
    if width > 0 {
      ValueOfPadded(width - 1, n / 10);
      assert Padded(width, n)[..width - 1] == Padded(width - 1, n / 10);
    }
  }

  /** At equal width, text order is numeric order. */
  lemma {:induction false} PaddedOrder(width: nat, m: nat, n: nat)
    requires m < Pow10(width) && n < Pow10(width)
    ensures Less(Padded(width, m), Padded(width, n)) <==> m < n
    ensures Padded(width, m) == Padded(width, n) <==> m == n
  {
    ValueOfPadded(width, m);
    ValueOfPadded(width, n);
    if width > 0 {
      var p, q := Padded(width - 1, m / 10), Padded(width - 1, n / 10);
      PaddedOrder(width - 1, m / 10, n / 10);
      if p == q {
        LessBehindPrefix(p, [Digit(m % 10)], [Digit(n % 10)]);
      } else {
        LessByPrefix(p, q, [Digit(m % 10)], [Digit(n % 10)]);
      }
    } else {
      LessIsIrreflexive("");
    }
  }
}
