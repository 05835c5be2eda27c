/** `Math.round` of a quotient of whole numbers, taken exactly: it rounds half up. */
module Rounding {

  function RoundedQuotient(n: nat, d: nat): nat
    requires d > 0
  {
    (2 * n + d) / (2 * d)
  }

  /** `r` is the whole number nearest to `n` over `d`, a half going up. */
  predicate Nearest(r: nat, n: nat, d: nat) { 2 * (r * d) <= 2 * n + d < 2 * (r * d) + 2 * d }

  lemma RoundedIsNearest(n: nat, d: nat)
    requires d > 0
    ensures Nearest(RoundedQuotient(n, d), n, d)
  {
    var r, m := RoundedQuotient(n, d), 2 * n + d;
    assert m == (m / (2 * d)) * (2 * d) + m % (2 * d);
    assert r * (2 * d) == 2 * (r * d);
  }

  lemma TimesLess(a: nat, b: nat, d: nat)
    requires a < b
    ensures a * d + d <= b * d
  {
    assert (a + 1) * d <= b * d;
  }

  lemma NearestIsOne(r: nat, r': nat, n: nat, d: nat)
    requires d > 0 && Nearest(r, n, d) && Nearest(r', n, d)
    ensures r == r'
  {
    if r < r' {
      TimesLess(r, r', d);
    } else if r' < r {
      TimesLess(r', r, d);
    }
  }

  /** So the rounded mean of numbers between two bounds is between them. */
  lemma NearestBetween(r: nat, n: nat, d: nat, lo: nat, hi: nat)
    requires d > 0 && Nearest(r, n, d) && lo * d <= n <= hi * d
    ensures lo <= r <= hi
  {
    if r < lo {
      TimesLess(r, lo, d);
    } else if r > hi {
      TimesLess(hi, r, d);
    }
  }

  lemma DivMonotone(m: nat, n: nat, d: nat)
    requires d > 0 && m <= n
    ensures m / d <= n / d
  {
    var e := m / d - n / d;
    assert e * d == (m / d) * d - (n / d) * d;
    assert e >= 1 ==> e * d >= d;
  }

  lemma DivIs(n: nat, d: nat, q: nat, r: nat)
    requires d > 0 && n == q * d + r && r < d
    ensures n / d == q
  {
    var e := n / d - q;
    assert e * d == (n / d) * d - q * d;
    assert e >= 1 ==> e * d >= d;
    assert e <= -1 ==> e * d + d <= 0;
  }
}
