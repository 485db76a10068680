/** `Math.round` of a quotient of non-negative integers. */
module Rounding {

  /** `r` is `a / b` rounded half up (`Math.round(a / b)` for non-negative `a`). */
  predicate IsRoundedQuotient(r: nat, a: nat, b: nat)
    requires b > 0
  {
    2 * r * b <= 2 * a + b < 2 * r * b + 2 * b
  }

  /** `Math.round(a / b)` on naturals. */
  function RoundDiv(a: nat, b: nat): (r: nat)
    requires b > 0
    ensures IsRoundedQuotient(r, a, b)
  {
    var q := (2 * a + b) / (2 * b);
    assert q * (2 * b) <= 2 * a + b < q * (2 * b) + 2 * b;
    q
  }

  /** A rounded quotient is unique, and an exact quotient rounds to itself. */
  lemma {:induction false} RoundedQuotientUnique(r: nat, r': nat, a: nat, b: nat)
    requires b > 0 && IsRoundedQuotient(r, a, b) && IsRoundedQuotient(r', a, b)
    ensures r == r'
  {
    assert r * (2 * b) < (r' + 1) * (2 * b);
    ScaledBelow(r, r', 2 * b);
    assert r' * (2 * b) < (r + 1) * (2 * b);
    ScaledBelow(r', r, 2 * b);
  }

  lemma ScaledBelow(x: nat, y: nat, k: nat)
    requires k > 0 && x * k < (y + 1) * k
    ensures x <= y
  {
  }

  /** Dividing a multiple of `b` by `b` needs no rounding. */
  lemma RoundExact(q: nat, b: nat)
    requires b > 0
    ensures RoundDiv(q * b, b) == q
  {
    RoundedQuotientUnique(RoundDiv(q * b, b), q, q * b, b);
  }
}
