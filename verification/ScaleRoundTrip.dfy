/** What crossing to a neighbour and straight back does to the coordinate along the shared edge. */
module ScaleRoundTrip {
  import opened Arithmetic
  import opened Layout
  import opened CrossingLaws

  /** Two axis lengths that occur: at least one pixel, at most 32 bits. */
  predicate Axes(a: int, b: int) {
    1 <= a < 0x8000_0000 && 1 <= b < 0x8000_0000
  }

  function ThereAndBack(v: int, a: int, b: int): int {
    Scale(Scale(v, a, b), b, a)
  }

  // --- The round trip ---------------------------------------------------------------------------

  lemma LossArithmetic(v: int, a: int, b: int)
    requires a >= 1 && b >= 1
    ensures v * b / a * a / b == v - CeilDiv(v * b % a, b)
  {
    var q, r := v * b / a, v * b % a;
    var k := CeilDiv(r, b);
    CeilBounds(r, b);
    Distribute(v, -k, b);
    QuotientUnique(q * a, b, v - k);
  }

  lemma RoundTripDivides(v: int, a: int, b: int)
    requires Axes(a, b) && 0 <= v < a
    ensures ThereAndBack(v, a, b) == v * b / a * a / b
  {
    ScaleIsDivision(v, a, b);
    ScaleIsDivision(v * b / a, b, a);
  }

  /** There and back loses exactly the scaled-down remainder of the first scaling, rounded up. */
  lemma RoundTripLoss(v: int, a: int, b: int)
    requires Axes(a, b) && 0 <= v < a
    ensures ThereAndBack(v, a, b) == v - CeilDiv(v * b % a, b)
  {
    RoundTripDivides(v, a, b);
    LossArithmetic(v, a, b);
  }

  lemma MonotoneArithmetic(u: int, v: int, a: int, b: int)
    requires a >= 1 && b >= 1 && u <= v
    ensures u * b / a * a / b <= v * b / a * a / b
  {
    ProductMonotone(u, v, b);
    QuotientMonotone(u * b, v * b, a);
    ProductMonotone(u * b / a, v * b / a, a);
    QuotientMonotone(u * b / a * a, v * b / a * a, b);
  }

  lemma RoundTripMonotone(u: int, v: int, a: int, b: int)
    requires Axes(a, b) && 0 <= u <= v < a
    ensures ThereAndBack(u, a, b) <= ThereAndBack(v, a, b)
  {
    RoundTripDivides(u, a, b);
    RoundTripDivides(v, a, b);
    MonotoneArithmetic(u, v, a, b);
  }

  // --- Its fixed points -------------------------------------------------------------------------

  function Gcd(a: nat, b: nat): (g: nat)
    ensures a > 0 || b > 0 ==> g >= 1
    decreases b
  {
    if b == 0 then a else Gcd(b, a % b)
  }

  lemma BezoutStep(a: int, b: int, q: int, r: int, x: int, y: int)
    requires a == q * b + r
    ensures a * y + b * (x - q * y) == b * x + r * y
  {
    Distribute(q * b, r, y);
    Distribute(x, -(q * y), b);
    Associate(b, q, y);
    assert b * (-(q * y)) == -(b * (q * y));
    Associate(q, b, y);
  }

  lemma FactorStep(a: int, b: int, q: int, r: int, g: int, m: int, n: int)
    requires a == q * b + r && b == g * m && r == g * n
    ensures g * (q * m + n) == a
  {
    Distribute(q * m, n, g);
    Associate(g, q, m);
  }

  /** The greatest common divisor divides both numbers and is a combination of them. */
  lemma {:induction false} Bezout(a: nat, b: nat) returns (x: int, y: int, m: int, n: int)
    requires a > 0 || b > 0
    ensures var g := Gcd(a, b); a == g * m && b == g * n && g == a * x + b * y
    decreases b
  {
    if b == 0 {
      x, y, m, n := 1, 0, 1, 0;
    } else {
      var x', y', m', n' := Bezout(b, a % b);
      var q := a / b;
      FactorStep(a, b, q, a % b, Gcd(b, a % b), m', n');
      BezoutStep(a, b, q, a % b, x', y');
      x, y, m, n := y', x' - q * y', q * m' + n', m';
    }
  }

  /** The step of the coordinates that survive a round trip. */
  function Period(a: int, b: int): int
    requires a >= 1 && b >= 1
  {
    a / Gcd(a, b)
  }

  lemma DivideExactly(g: int, m: int)
    requires g >= 1
    ensures g * m / g == m && g * m % g == 0
  {
    assert m * g == g * m;
    QuotientUnique(g * m, g, m);
    assert g * m == g * m / g * g + g * m % g;
  }

  lemma Cancel(g: int, s: int, t: int)
    requires g >= 1 && g * s == g * t
    ensures s == t
  {
    DivideExactly(g, s);
    DivideExactly(g, t);
  }

  lemma PeriodFactors(a: int, b: int) returns (g: int, n: int, x: int, y: int)
    requires a >= 1 && b >= 1
    ensures var p := Period(a, b); g >= 1 && p >= 1 && a == g * p && b == g * n && p * x + n * y == 1
  {
    var m, k;
    x, y, m, k := Bezout(a, b);
    g, n := Gcd(a, b), k;
    DivideExactly(g, m);
    Distribute(m * x, n * y, g);
    Associate(g, m, x);
    Associate(g, n, y);
    Cancel(g, m * x + n * y, 1);
    if m <= 0 {
      ProductMonotone(m, 0, g);
    }
  }

  /** A coordinate has no remainder on the other axis exactly if it is a multiple of the period. */
  lemma NoRemainder(v: int, a: int, b: int)
    requires a >= 1 && b >= 1 && v >= 0
    ensures Period(a, b) >= 1
    ensures v * b % a == 0 <==> v % Period(a, b) == 0
  {
    var g, n, x, y := PeriodFactors(a, b);
    var p := Period(a, b);
    if v * b % a == 0 {
      RemainderGoesDown(v, a, b, g, p, n, x, y);
    }
    if v % p == 0 {
      var m := v / p;
      assert v == p * m;
      Associate(p * m, g, n);
      Associate(g, p, m);
      Associate(a, m, n);
      assert v * b == a * (m * n);
      DivideExactly(a, m * n);
    }
  }

  lemma RemainderGoesDown(v: int, a: int, b: int, g: int, p: int, n: int, x: int, y: int)
    requires a >= 1 && g >= 1 && p >= 1 && a == g * p && b == g * n && p * x + n * y == 1
    requires v * b % a == 0
    ensures v % p == 0
  {
    var k := v * b / a;
    assert v * b == k * a;
    Associate(v, g, n);
    Associate(k, g, p);
    Cancel(g, v * n, k * p);
    Distribute(p * x, n * y, v);
    Associate(v, p, x);
    Associate(v, n, y);
    Associate(k, p, y);
    assert (k * p) * y == p * (k * y);
    Distribute(v * x, k * y, p);
    assert v == p * (v * x + k * y);
    DivideExactly(p, v * x + k * y);
  }

  /** A round trip never raises a coordinate, and leaves alone exactly the multiples of the period. */
  lemma RoundTripFixed(v: int, a: int, b: int)
    requires Axes(a, b) && 0 <= v < a
    ensures 0 <= ThereAndBack(v, a, b) <= v
    ensures Period(a, b) >= 1
    ensures ThereAndBack(v, a, b) == v <==> v % Period(a, b) == 0
  {
    RoundTripLoss(v, a, b);
    CeilZero(v * b % a, b);
    NoRemainder(v, a, b);
    ScaleInRange(Scale(v, a, b), b, a);
  }

  /** The largest multiple of `p` not above `v`. */
  function Floor(v: int, p: int): (f: int)
    requires p >= 1
    ensures f <= v
  {
    v - v % p
  }

  lemma FloorIsMultiple(v: int, p: int)
    requires p >= 1 && v >= 0
    ensures Floor(v, p) >= 0 && Floor(v, p) % p == 0
    ensures v % p == 0 ==> Floor(v, p) == v
  {
    var q := v / p;
    assert v == q * p + v % p;
    QuotientMonotone(0, v, p);
    ProductMonotone(0, q, p);
    DivideExactly(p, q);
  }

  lemma SameFloor(u: int, v: int, p: int)
    requires p >= 1 && Floor(v, p) <= u <= v
    ensures Floor(u, p) == Floor(v, p)
  {
    var q := v / p;
    assert v == q * p + v % p;
    QuotientUnique(u, p, q);
    assert u == u / p * p + u % p;
  }

  /** One round trip, as far as settling is concerned. */
  lemma RoundTripNearsFloor(v: int, a: int, b: int)
    requires Axes(a, b) && 0 <= v < a
    ensures Period(a, b) >= 1
    ensures var p, u := Period(a, b), ThereAndBack(v, a, b);
      && 0 <= u <= v
      && Floor(v, p) <= u && Floor(u, p) == Floor(v, p)
      && (u == v ==> v == Floor(v, p))
  {
    RoundTripFixed(v, a, b);
    var p, u := Period(a, b), ThereAndBack(v, a, b);
    FloorIsMultiple(v, p);
    RoundTripFixed(Floor(v, p), a, b);
    RoundTripMonotone(Floor(v, p), v, a, b);
    SameFloor(u, v, p);
  }

  function RoundTrips(v: int, a: int, b: int, times: nat): int
    decreases times
  {
    if times == 0 then v else RoundTrips(ThereAndBack(v, a, b), a, b, times - 1)
  }

  /**
   Repeated round trips never raise the coordinate nor take it below the largest multiple of the period
   not above it, and after as many trips as the distance to that multiple they have settled there.
   */
  lemma {:induction false} RoundTripsSettle(v: int, a: int, b: int, times: nat)
    requires Axes(a, b) && 0 <= v < a
    ensures Period(a, b) >= 1
    ensures var floor := Floor(v, Period(a, b));
      floor <= RoundTrips(v, a, b, times) <= v && (times >= v - floor ==> RoundTrips(v, a, b, times) == floor)
    decreases times
  {
    RoundTripNearsFloor(v, a, b);
    if times > 0 {
      RoundTripsSettle(ThereAndBack(v, a, b), a, b, times - 1);
    }
  }
}
