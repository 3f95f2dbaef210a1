/** Facts about products and quotients of integers. */
module Arithmetic {
  function Max(a: int, b: int): int { if a > b then a else b }
  function Min(a: int, b: int): int { if a < b then a else b }

  function Distance(a: int, b: int): int { if a < b then b - a else a - b }

  /** Halfway along an axis, rounded down. */
  predicate Halfway(extent: int, v: int) {
    2 * v <= extent < 2 * v + 2
  }

  function CeilDiv(n: int, d: int): int
    requires d > 0
  {
    (n + d - 1) / d
  }

  lemma FloorBounds(p: int, q: int, d: int)
    requires d >= 1 && 0 <= p && p < q * d
    ensures 0 <= p / d < q
  {
    if p / d >= q {
      ProductMonotone(q, p / d, d);
    }
  }

  lemma ProductMonotone(a: int, b: int, c: int)
    requires a <= b && 0 <= c
    ensures a * c <= b * c
  {
  }

  lemma ProductStrict(a: int, b: int, c: int)
    requires a < b && 0 < c
    ensures a * c < b * c
  {
  }

  lemma Distribute(a: int, b: int, c: int)
    ensures (a + b) * c == a * c + b * c && c * (a + b) == c * a + c * b
  {
  }

  lemma Associate(a: int, b: int, c: int)
    ensures a * (b * c) == (a * b) * c && a * (b * c) == b * (a * c)
  {
  }

  /** A multiple of `d` less than `d` away from zero is zero. */
  lemma SmallMultiple(k: int, d: int)
    requires -d < k * d < d
    ensures k == 0
  {
    if k >= 1 {
      ProductMonotone(1, k, d);
    } else if k <= -1 {
      ProductMonotone(k, -1, d);
    }
  }

  lemma QuotientUnique(p: int, d: int, m: int)
    requires d > 0 && m * d <= p < m * d + d
    ensures p / d == m
  {
    assert p == p / d * d + p % d;
    Distribute(p / d, -m, d);
    SmallMultiple(p / d - m, d);
  }

  lemma CeilBounds(r: int, d: int)
    requires d > 0
    ensures CeilDiv(r, d) * d - d < r <= CeilDiv(r, d) * d
  {
    var n := r + d - 1;
    assert n == n / d * d + n % d;
  }

  lemma QuotientMonotone(p: int, q: int, d: int)
    requires d > 0 && p <= q
    ensures p / d <= q / d
  {
    assert p == p / d * d + p % d && q == q / d * d + q % d;
    var k := q / d - p / d;
    Distribute(q / d, -(p / d), d);
    if k <= -1 {
      ProductMonotone(k, -1, d);
    }
  }

  lemma CeilZero(r: int, d: int)
    requires d > 0 && r >= 0
    ensures CeilDiv(r, d) >= 0
    ensures CeilDiv(r, d) == 0 <==> r == 0
  {
    CeilBounds(r, d);
    if CeilDiv(r, d) < 0 {
      ProductMonotone(CeilDiv(r, d), -1, d);
    }
    if r == 0 {
      QuotientUnique(d - 1, d, 0);
    }
  }
}
