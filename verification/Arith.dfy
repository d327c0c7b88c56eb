/** Facts of non-linear arithmetic, one small step each. */
module Arith {

  lemma QuotientBounds(x: nat, o: nat)
    requires o > 0
    ensures x / o * o <= x < (x / o + 1) * o
  {
    assert x == x / o * o + x % o;
  }

  lemma DivMod(x: nat, o: nat)
    requires o > 0
    ensures x == x / o * o + x % o && x % o < o
  {
  }

  lemma MulAssoc(a: int, b: int, c: int)
    ensures a * b * c == a * (b * c)
  {
  }

  lemma Rearrange(a: int, b: int, c: int)
    ensures a * b * c == a * c * b
  {
    assert a * b * c == a * (b * c);
    assert a * c * b == a * (c * b);
    assert b * c == c * b;
  }

  lemma MulLess(a: int, b: int, c: int)
    requires a < b && c > 0
    ensures a * c < b * c
  {
    assert (b - a) * c > 0;
  }

  lemma MulLeq(a: int, b: int, c: int)
    requires a <= b && c >= 0
    ensures a * c <= b * c
  {
    assert (b - a) * c >= 0;
  }

  lemma MulCancelLeq(a: int, b: int, c: int)
    requires a * c <= b * c && c > 0
    ensures a <= b
  {
    if a > b { MulLess(b, a, c); }
  }

  lemma MulCancelLess(a: int, b: int, c: int)
    requires a * c < b * c && c > 0
    ensures a < b
  {
    if a >= b { MulLeq(b, a, c); }
  }

  lemma DivMonotone(a: nat, b: nat, d: nat)
    requires a <= b && d > 0
    ensures a / d <= b / d
  {
    QuotientBounds(a, d);
    QuotientBounds(b, d);
    MulCancelLess(a / d, b / d + 1, d);
  }

  lemma DivModUnique(a: nat, m: nat, q: nat, r: nat)
    requires m > 0 && r < m && a == q * m + r
    ensures a / m == q && a % m == r
  {
    QuotientBounds(a, m);
    assert (q + 1) * m == q * m + m;
    MulCancelLess(a / m, q + 1, m);
    MulCancelLess(q, a / m + 1, m);
  }
}
