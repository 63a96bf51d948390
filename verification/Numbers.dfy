/**
 Rounding and extrema. The program computes with binary floats; the model uses exact
 reals for fractions, percentages and margins, and integers for tokens and seconds.
 */
module Numbers {

  /** A parsed float; infinities and NaN are `NonFinite`. */
  datatype Float = Finite(x: real) | NonFinite

  /** `math.ceil`. */
  function Ceil(x: real): int {
    -(-x).Floor
  }

  lemma CeilBounds(x: real)
    ensures (Ceil(x) as real) - 1.0 < x <= Ceil(x) as real
  {
    assert (-x).Floor as real <= -x < ((-x).Floor + 1) as real;
  }

  /** The ceiling is the least integer at or above its argument. */
  lemma CeilLeast(x: real, k: int)
    ensures x <= k as real <==> Ceil(x) <= k
  {
    CeilBounds(x);
  }

  lemma FloorWithin(x: real, k: nat)
    requires 0.0 <= x <= k as real
    ensures 0 <= x.Floor <= k
    ensures x.Floor as real <= x < (x.Floor + 1) as real
  {
    var f := x.Floor;
    assert f as real <= x < (f + 1) as real;
    assert f as real < (k + 1) as real && -1.0 < f as real;
  }

  function Min(a: int, b: int): int {
    if a < b then a else b
  }

  function Max(a: int, b: int): int {
    if a < b then b else a
  }

  function MinReal(a: real, b: real): real {
    if a < b then a else b
  }

  function MaxReal(a: real, b: real): real {
    if a < b then b else a
  }

  /** Python's `max` over a non-empty list of floats. */
  function Largest(xs: seq<real>): (r: real)
    requires xs != []
    ensures r in xs
    ensures forall x <- xs :: x <= r
  {
    assert xs == [xs[0]] + xs[1..];
    if |xs| == 1 then xs[0] else MaxReal(xs[0], Largest(xs[1..]))
  }

  /** Python's `min` over a non-empty list of floats. */
  function Smallest(xs: seq<real>): (r: real)
    requires xs != []
    ensures r in xs
    ensures forall x <- xs :: r <= x
  {
    assert xs == [xs[0]] + xs[1..];
    if |xs| == 1 then xs[0] else MinReal(xs[0], Smallest(xs[1..]))
  }

  lemma ProductMonotone(a: real, x: real, y: real)
    requires 0.0 <= a && x <= y
    ensures a * x <= a * y
  {
    assert 0.0 <= a * (y - x);
  }

  /** Dividing a product of non-negative reals keeps the order of the numerators. */
  lemma QuotientMonotone(a: real, b: real, d: real)
    requires a <= b && d > 0.0
    ensures a / d <= b / d
  {
    QuotientMonotoneStrict(a, b, d);
  }

  lemma QuotientMonotoneStrict(a: real, b: real, d: real)
    requires d > 0.0
    ensures a / d * d == a && b / d * d == b
    ensures a <= b <==> a / d <= b / d
  {
    var p, q := a / d, b / d;
    assert p * d == a && q * d == b;
    assert (q - p) * d == b - a;
    if p <= q {
      assert 0.0 <= (q - p) * d;
    } else {
      assert (q - p) * d < 0.0;
    }
  }

  lemma QuotientAboveOne(a: real, d: real)
    requires 0.0 < d < a
    ensures a / d > 1.0
  {
    assert a / d * d == a;
    assert (a / d - 1.0) * d == a - d > 0.0;
  }

  lemma ProductAbove(a: real, x: real)
    requires 0.0 < a && 1.0 < x
    ensures a * x > a
  {
    assert a * (x - 1.0) > 0.0;
    assert a * x == a + a * (x - 1.0);
  }

  /** A fraction of a count, rounded down, stays within the count. */
  lemma FractionOf(k: nat, h: real)
    requires 0.0 <= h <= 1.0
    ensures 0 <= (k as real * h).Floor <= k
    ensures (k as real * h).Floor as real <= k as real * h < ((k as real * h).Floor + 1) as real
  {
    ProductWithin(k as real, h);
    FloorWithin(k as real * h, k);
  }

  lemma ProductWithin(a: real, h: real)
    requires 0.0 <= a && 0.0 <= h <= 1.0
    ensures 0.0 <= a * h <= a
  {
    assert a - a * h == a * (1.0 - h);
  }

  /** A larger divisor gives a smaller quotient. */
  lemma QuotientAntitone(a: real, d: real, e: real)
    requires a >= 0.0 && 0.0 < d <= e
    ensures a / e <= a / d
  {
    var q := a / d;
    QuotientMonotone(0.0, a, d);
    assert q >= 0.0 && q * d == a;
    assert a <= q * e by { assert 0.0 <= q * (e - d); }
    QuotientMonotoneStrict(a, q * e, e);
    assert q * e / e == q;
  }

  lemma UniqueRemainder(k: nat, q: nat, r: nat, n: nat)
    requires r < n && k == q * n + r
    ensures k % n == r
  {
    var p, t := k / n, k % n;
    assert (p - q) * n == r - t;
    if p > q {
      Multiple(p - q, n);
      assert false;
    } else if p < q {
      Multiple(q - p, n);
      assert false;
    }
  }

  lemma ModuloModulo(k: nat, n: nat)
    requires n > 0
    ensures k % n % n == k % n
  {
    UniqueRemainder(k % n, 0, k % n, n);
  }

  lemma Multiple(d: int, n: int)
    requires d >= 1 && n >= 1
    ensures d * n >= n
  {
    assert (d - 1) * n >= 0;
  }
}
