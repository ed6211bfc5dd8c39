/**
 A few facts about quotients and remainders of natural numbers.
 */
module Division {

  lemma Multiples(k: int, d: int)
    requires 0 < d
    ensures (k >= 1 ==> k * d >= d) && (k <= -1 ==> k * d <= -d)
  {
  }

  lemma QuotientIs(n: nat, d: nat, q: nat, r: nat)
    requires n == q * d + r && r < d
    ensures n / d == q && n % d == r
  {
    var k := n / d - q;
    assert k * d == (n / d) * d - q * d == r - n % d;
    Multiples(k, d);
  }

  lemma Regroup(q: nat, d: nat, r: nat, c: nat, low: nat)
    ensures (q * d + r) * c + low == q * (c * d) + (r * c + low)
  {
    assert (q * d + r) * c == (q * d) * c + r * c;
    assert (q * d) * c == q * (d * c);
  }

  lemma BelowProduct(r: nat, d: nat, low: nat, c: nat)
    requires r < d && low < c
    ensures r * c + low < c * d
  {
    var k := d - r - 1;
    assert d == r + 1 + k;
    assert c * d == c * r + c + c * k;
  }

  lemma DividedTwice(n: nat, c: nat, d: nat, m: nat, low: nat, q: nat, r: nat)
    requires n == m * c + low && low < c && m == q * d + r && r < d
    ensures c * d > 0 && n / (c * d) == q
  {
    Regroup(q, d, r, c, low);
    BelowProduct(r, d, low, c);
    QuotientIs(n, c * d, q, r * c + low);
  }

  lemma DivideTwice(n: nat, c: nat, d: nat)
    requires c > 0 && d > 0
    ensures c * d > 0 && n / (c * d) == n / c / d
  {
    DividedTwice(n, c, d, n / c, n % c, n / c / d, n / c % d);
  }

  lemma Periodic(n: nat, d: nat)
    requires d > 0
    ensures (n + d) % d == n % d && (n + d) / d == n / d + 1
  {
    var q, r := n / d, n % d;
    assert n + d == (q + 1) * d + r;
    QuotientIs(n + d, d, q + 1, r);
  }
}
