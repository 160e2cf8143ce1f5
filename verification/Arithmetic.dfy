/** The few facts about products and quotients that the solver needs spelled out. */
module Arithmetic {
  lemma Multiples(x: int, d: int)
    requires 0 < d
    ensures x >= 1 ==> x * d >= d
    ensures x <= -1 ==> x * d <= -d
  {
  }

  lemma Distribute(a: int, b: int, d: int)
    ensures (a - b) * d == a * d - b * d
  {
  }

  lemma Quotient(n: int, d: int, q: int, r: int)
    requires 0 <= r < d && n == q * d + r
    ensures n / d == q && n % d == r
  {
    var a := n / d;
    var m := n % d;
    assert n == a * d + m && 0 <= m < d;
    Distribute(a, q, d);
    Multiples(a - q, d);
  }

  lemma QuotientBound(n: nat, p: nat, b: nat)
    requires p > 0 && n < b * p
    ensures n / p < b
  {
  }

  lemma TenthOfQuotient(n: nat, p: nat)
    requires p > 0
    ensures n / 10 / p == n / (10 * p)
    ensures n % (10 * p) == 10 * (n / 10 % p) + n % 10
  {
    var q, r := n / 10 / p, n / 10 % p;
    assert n / 10 == q * p + r;
    assert q * (10 * p) == 10 * (q * p);
    Quotient(n, 10 * p, q, 10 * r + n % 10);
  }

  lemma ClockFields(second: nat)
    ensures second == 3600 * (second / 3600) + 60 * (second / 60 % 60) + second % 60
  {
  }
}
