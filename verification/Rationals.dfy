/**
 * Exact prices (src/market/ohlcv.ts): Euclid's loop, and the fact that two reduced fractions are the same pair
 * exactly when the fractions cross-multiply equal.
 */
module Rationals {
  import opened Options
  import opened Basics

  datatype Rational = Rational(numerator: int, denominator: int)

  // ---- products ----------------------------------------------------------------------------------

  lemma Associate(a: int, b: int, c: int)
    ensures (a * b) * c == a * (b * c)
  {
  }

  lemma Exchange(a: int, b: int, c: int, d: int)
    ensures (a * b) * (c * d) == (a * c) * (b * d)
  {
    Associate(a, b, c * d);
    Associate(b, c, d);
    Associate(c, b, d);
    Associate(a, c, b * d);
  }

  lemma Cancel(a: int, b: int, k: int)
    requires k != 0 && a * k == b * k
    ensures a == b
  {
    assert (a - b) * k == 0;
  }

  lemma AtLeast(k: int, d: nat)
    requires k >= 1
    ensures k * d >= d
  {
    assert (k - 1) * d >= 0;
  }

  /** Quotient and remainder are the only ones. */
  lemma QuotientIs(n: int, d: nat, q: int, r: nat)
    requires d > 0 && n == q * d + r && r < d
    ensures n / d == q && n % d == r
  {
    var p, s := n / d, n % d;
    assert p * d + s == q * d + r;
    assert (q - p) * d == q * d - p * d && (p - q) * d == p * d - q * d;
    if p < q {
      AtLeast(q - p, d);
    }
    if p > q {
      AtLeast(p - q, d);
    }
  }

  lemma PositiveFactor(q: int, g: nat)
    requires q * g > 0
    ensures q > 0
  {
    assert (1 - q) * g == g - q * g;
    if q <= 0 {
      AtLeast(1 - q, g);
    }
  }

  lemma AbsScales(m: int, g: nat)
    ensures Abs(m * g) == Abs(m) * g
  {
    assert (-m) * g == -(m * g);
    if m < 0 {
      assert (-m) * g >= 0;
    } else {
      assert m * g >= 0;
    }
  }

  lemma Distribute(c: int, q: int, r: int, g: int)
    ensures (c * q + r) * g == c * (q * g) + r * g
  {
    Associate(c, q, g);
  }

  // ---- the greatest common divisor ---------------------------------------------------------------

  function Gcd(a: nat, b: nat): nat
    decreases b
  {
    if b == 0 then a else Gcd(b, a % b)
  }

  method ComputeGcd(a: int, b: int) returns (g: nat)
    ensures g == Gcd(Abs(a), Abs(b))
  {
    var x, y := Abs(a), Abs(b);
    while y != 0
      invariant Gcd(x, y) == Gcd(Abs(a), Abs(b))
      decreases y
    {
      x, y := y, x % y;
    }
    g := x;
  }

  lemma {:induction false} GcdPositive(a: nat, b: nat)
    requires a > 0 || b > 0
    ensures Gcd(a, b) > 0
    decreases b
  {
    if b > 0 {
      GcdPositive(b, a % b);
    }
  }

  /** The quotients of both arguments by their greatest common divisor. */
  lemma {:induction false} GcdDivides(a: nat, b: nat) returns (x: nat, y: nat)
    ensures a == x * Gcd(a, b) && b == y * Gcd(a, b)
    decreases b
  {
    if b == 0 {
      x, y := 1, 0;
    } else {
      var q, r := GcdDivides(b, a % b);
      var g := Gcd(b, a % b);
      x, y := a / b * q + r, q;
      Distribute(a / b, q, r, g);
      assert a == (a / b) * b + a % b;
    }
  }

  lemma ScaledRemainder(k: nat, a: nat, b: nat)
    requires k > 0 && b > 0
    ensures k * b > 0 && (k * a) % (k * b) == k * (a % b)
  {
    var q, r := a / b, a % b;
    assert a == q * b + r;
    assert k * a == k * (q * b) + k * r;
    assert k * (q * b) == q * (k * b);
    assert k * b == k * r + k * (b - r) && k * (b - r) > 0;
    QuotientIs(k * a, k * b, q, k * r);
  }

  lemma {:induction false} GcdScales(k: nat, a: nat, b: nat)
    requires k > 0
    ensures Gcd(k * a, k * b) == k * Gcd(a, b)
    decreases b
  {
    if b > 0 {
      ScaledRemainder(k, a, b);
      GcdScales(k, b, a % b);
    }
  }

  // ---- reduction ---------------------------------------------------------------------------------

  /** Lowest terms; both divisions are exact. */
  function Reduce(n: int, d: int): Rational
    requires d > 0
  {
    GcdPositive(Abs(n), d);
    var g := Gcd(Abs(n), d);
    Rational(n / g, d / g)
  }

  /** None is the error for a denominator that is not positive. */
  method MakeRational(n: int, d: int) returns (r: Option<Rational>)
    ensures r == if d <= 0 then None else Some(Reduce(n, d))
  {
    if d <= 0 {
      return None;
    }
    var g := ComputeGcd(n, d);
    GcdPositive(Abs(n), d);
    r := Some(Rational(n / g, d / g));
  }

  /** The common factor that reduction takes out. */
  lemma Factor(n: int, d: int) returns (g: nat)
    requires d > 0
    ensures g > 0 && g == Gcd(Abs(n), d)
    ensures var r := Reduce(n, d); n == r.numerator * g && d == r.denominator * g && r.denominator > 0
    ensures n > 0 ==> Reduce(n, d).numerator > 0
  {
    GcdPositive(Abs(n), d);
    g := Gcd(Abs(n), d);
    var x, y := GcdDivides(Abs(n), d);
    if n < 0 {
      assert n == (-x) * g;
      QuotientIs(n, g, -x, 0);
    } else {
      QuotientIs(n, g, x, 0);
    }
    QuotientIs(d, g, y, 0);
    PositiveFactor(d / g, g);
    if n > 0 {
      PositiveFactor(n / g, g);
    }
  }

  lemma ProportionalGcds(a1: nat, d1: nat, a2: nat, d2: nat)
    requires d1 > 0 && d2 > 0 && d2 * a1 == d1 * a2
    ensures d2 * Gcd(a1, d1) == d1 * Gcd(a2, d2)
  {
    GcdScales(d2, a1, d1);
    GcdScales(d1, a2, d2);
  }

  /** Cross-multiplied equality makes the factors proportional to the denominators. */
  lemma ProportionalFactors(n1: int, d1: int, n2: int, d2: int)
    requires d1 > 0 && d2 > 0 && n1 * d2 == n2 * d1
    ensures d2 * Gcd(Abs(n1), d1) == d1 * Gcd(Abs(n2), d2)
  {
    AbsScales(n1, d2);
    AbsScales(n2, d1);
    ProportionalGcds(Abs(n1), d1, Abs(n2), d2);
  }

  lemma SamePair(p1: int, q1: int, g1: nat, p2: int, q2: int, g2: nat)
    requires g1 > 0 && g2 > 0 && q1 > 0
    requires (p1 * g1) * (q2 * g2) == (p2 * g2) * (q1 * g1)
    requires (q2 * g2) * g1 == (q1 * g1) * g2
    ensures p1 == p2 && q1 == q2
  {
    var g := g1 * g2;
    Associate(q2, g2, g1);
    Associate(q1, g1, g2);
    Cancel(q1, q2, g);
    Exchange(p1, g1, q2, g2);
    Exchange(p2, g2, q1, g1);
    Cancel(p1 * q1, p2 * q1, g);
    Cancel(p1, p2, q1);
  }

  lemma EqualValuesReduceEqual(n1: int, d1: int, n2: int, d2: int)
    requires d1 > 0 && d2 > 0 && n1 * d2 == n2 * d1
    ensures Reduce(n1, d1) == Reduce(n2, d2)
  {
    var g1 := Factor(n1, d1);
    var g2 := Factor(n2, d2);
    var r1, r2 := Reduce(n1, d1), Reduce(n2, d2);
    ProportionalFactors(n1, d1, n2, d2);
    SamePair(r1.numerator, r1.denominator, g1, r2.numerator, r2.denominator, g2);
  }

  /** Reduction gives the same pair exactly for fractions of equal value. */
  lemma ReducedEqualIffSameValue(n1: int, d1: int, n2: int, d2: int)
    requires d1 > 0 && d2 > 0
    ensures Reduce(n1, d1) == Reduce(n2, d2) <==> n1 * d2 == n2 * d1
  {
    if n1 * d2 == n2 * d1 {
      EqualValuesReduceEqual(n1, d1, n2, d2);
    }
    if Reduce(n1, d1) == Reduce(n2, d2) {
      var g1 := Factor(n1, d1);
      var g2 := Factor(n2, d2);
      var r := Reduce(n1, d1);
      Exchange(r.numerator, g1, r.denominator, g2);
      Exchange(r.numerator, g2, r.denominator, g1);
    }
  }

  /** Lowest terms indeed: nothing but one divides both parts. */
  lemma ReducedIsLowest(n: int, d: int)
    requires d > 0
    ensures Reduce(n, d).denominator > 0
    ensures Gcd(Abs(Reduce(n, d).numerator), Reduce(n, d).denominator) == 1
  {
    var g := Factor(n, d);
    var r := Reduce(n, d);
    AbsScales(r.numerator, g);
    GcdScales(g, Abs(r.numerator), r.denominator);
    Cancel(Gcd(Abs(r.numerator), r.denominator), 1, g);
  }

  // ---- comparison --------------------------------------------------------------------------------

  predicate Valid(r: Rational) {
    r.numerator > 0 && r.denominator > 0
  }

  function Compare(a: Rational, b: Rational): int {
    a.numerator * b.denominator - b.numerator * a.denominator
  }

  function Canonical(r: Rational): Rational
    requires Valid(r)
  {
    Reduce(r.numerator, r.denominator)
  }

  lemma CanonicalValid(r: Rational)
    requires Valid(r)
    ensures Valid(Canonical(r)) && Compare(r, Canonical(r)) == 0
    ensures Canonical(Canonical(r)) == Canonical(r)
  {
    var g := Factor(r.numerator, r.denominator);
    var c := Canonical(r);
    Associate(c.numerator, g, c.denominator);
    Associate(c.numerator, c.denominator, g);
    EqualValuesReduceEqual(r.numerator, r.denominator, c.numerator, c.denominator);
  }

  /** Scaling both sides of `a <= b` by a positive factor, with the products named. */
  lemma ScaleOrder(x: int, y: int, k: int)
    requires x <= y && k > 0
    ensures x * k <= y * k
    ensures x < y ==> x * k < y * k
  {
    assert (y - x) * k == y * k - x * k;
    if x < y {
      AtLeast(y - x, k);
    }
  }

  lemma CompareTransitive(a: Rational, b: Rational, c: Rational)
    requires Valid(a) && Valid(b) && Valid(c)
    requires Compare(a, b) <= 0 && Compare(b, c) <= 0
    ensures Compare(a, c) <= 0
    ensures Compare(a, b) < 0 || Compare(b, c) < 0 ==> Compare(a, c) < 0
  {
    var (p, q, u, v, m, n) := (a.numerator, a.denominator, b.numerator, b.denominator, c.numerator, c.denominator);
    ScaleOrder(p * v, u * q, n);
    ScaleOrder(u * n, m * v, q);
    Associate(p, v, n);
    Associate(p, n, v);
    Associate(u, q, n);
    Associate(u, n, q);
    Associate(m, v, q);
    Associate(m, q, v);
    assert (p * n) * v <= (m * q) * v;
    if p * n > m * q {
      ScaleOrder(m * q, p * n, v);
    }
  }

  /** Comparison cannot tell a price from its canonical form, and two canonical prices of one value are one pair. */
  lemma SameValue(a: Rational, b: Rational)
    requires Valid(a) && Valid(b)
    ensures Compare(a, b) == 0 <==> Canonical(a) == Canonical(b)
  {
    ReducedEqualIffSameValue(a.numerator, a.denominator, b.numerator, b.denominator);
  }
}
