/**
  Python's numeric conversions on non-integral values, over Dafny's exact `real`:
  `int(x)` truncates toward zero, `math.ceil(x)` rounds up and `round(x)` rounds
  to the nearest integer with ties going to the even one. Each is characterised
  by its contract, not by its body.
 */
module Numeric {

  /** Python's `int(x)` on a float: truncation toward zero. */
  function Trunc(x: real): (r: int)
    ensures 0.0 <= x ==> 0 <= r && r as real <= x < r as real + 1.0
    ensures x < 0.0 ==> r <= 0 && x <= r as real < x + 1.0
  {
    if x >= 0.0 then x.Floor else -((-x).Floor)
  }

  /** Python's `math.ceil(x)`: the least integer not below `x`. */
  function Ceil(x: real): (r: int)
    ensures x <= r as real < x + 1.0
  {
    -((-x).Floor)
  }

  /** Python's `round(x)` on a float: nearest integer, a tie goes to the even one. */
  function Round(x: real): (r: int)
    ensures x - 0.5 <= r as real <= x + 0.5
    ensures (r as real - x == 0.5 || x - r as real == 0.5) ==> r % 2 == 0
  {
    var f := x.Floor;
    var d := x - f as real;
    if d < 0.5 then f
    else if d > 0.5 then f + 1
    else if f % 2 == 0 then f
    else f + 1
  }

  function Max(a: int, b: int): (r: int)
    ensures r >= a && r >= b && (r == a || r == b)
  {
    if a >= b then a else b
  }

  function Min(a: int, b: int): (r: int)
    ensures r <= a && r <= b && (r == a || r == b)
  {
    if a <= b then a else b
  }

  /** A value that Python would print without a fractional part. */
  predicate IsWhole(x: real) {
    x.Floor as real == x
  }

  lemma TruncOfWhole(n: int)
    ensures Trunc(n as real) == n
  {
  }

  /** On non-negative values `int()` never decreases when its argument grows. */
  lemma TruncMonotone(x: real, y: real)
    ensures 0.0 <= x <= y ==> Trunc(x) <= Trunc(y)
  {
  }

  lemma CeilOfWhole(n: int)
    ensures Ceil(n as real) == n
  {
  }

  /** Only an integer at distance at most one half from x can be `round(x)`,
      and the tie is broken by parity. */
  lemma RoundUnique(x: real, n: int)
    requires x - 0.5 <= n as real <= x + 0.5
    requires (n as real - x == 0.5 || x - n as real == 0.5) ==> n % 2 == 0
    ensures Round(x) == n
  {
  }

  lemma RoundOfWhole(n: int)
    ensures Round(n as real) == n
  {
    RoundUnique(n as real, n);
  }

  /** `round` never decreases when its argument grows. */
  lemma RoundMonotone(x: real, y: real)
    ensures x <= y ==> Round(x) <= Round(y)
  {
  }

  /** A non-negative value rounds to a non-negative integer. */
  lemma RoundNonNegative(x: real)
    ensures 0.0 <= x ==> 0 <= Round(x)
  {
    RoundMonotone(0.0, x);
    RoundOfWhole(0);
  }

  /** `math.ceil(a / b)` on whole numbers with `b > 0` is the least number of
      `b`-sized blocks that cover `a`. */
  lemma CeilQuotient(a: int, b: int)
    requires b > 0
    ensures Ceil(a as real / b as real) * b >= a
    ensures (Ceil(a as real / b as real) - 1) * b < a
    ensures forall t: int :: t * b >= a ==> t >= Ceil(a as real / b as real)
  {
    var s := Ceil(a as real / b as real);
    CeilQuotientCovers(a, b);
    CeilQuotientTight(a, b);
    forall t: int | t * b >= a
      ensures t >= s
    {
      MulMono(t, s - 1, b);
    }
  }

  /** `math.ceil(a / b)` for a real quantity and a positive real divisor: the
      least whole number of `b`-sized units that covers `a`. */
  lemma CeilQuotientReal(a: real, b: real)
    requires b > 0.0
    ensures Ceil(a / b) as real * b >= a
    ensures (Ceil(a / b) - 1) as real * b < a
  {
    var q := a / b;
    var s := Ceil(q);
    assert q * b == a;
    ScaledQuotient(s as real, q, b, a);
    ScaledQuotient((s - 1) as real, q, b, a);
  }

  /** Scaling by a positive divisor keeps a value's side of the quotient. */
  lemma ScaledQuotient(x: real, q: real, b: real, a: real)
    requires b > 0.0 && q * b == a
    ensures q <= x ==> a <= x * b
    ensures x < q ==> x * b < a
  {
    MulLeq(q, x, b);
    MulLess(x, q, b);
  }

  /** No fewer units than `Ceil(a / b)` cover `a`. */
  lemma CeilQuotientRealLeast(a: real, b: real, t: int)
    requires b > 0.0
    ensures t as real * b >= a ==> t >= Ceil(a / b)
  {
    CeilQuotientReal(a, b);
    if t < Ceil(a / b) { MulLeq(t as real, (Ceil(a / b) - 1) as real, b); }
  }

  /** The guarded ceiling division the pages use for headcounts: the least
      number of `b`-sized units covering `a`, or zero when a unit is empty. */
  function CeilDiv(a: int, b: int): (r: int)
    ensures b <= 0 ==> r == 0
    ensures b > 0 ==> r * b >= a && (r - 1) * b < a
    ensures b > 0 ==> forall n: int :: n * b >= a ==> n >= r
    ensures b > 0 && a >= 0 ==> r >= 0
    ensures a == 0 ==> r == 0
  {
    if b > 0 then
      CeilQuotient(a, b);
      MulMono(0, Ceil(a as real / b as real), b);
      Ceil(a as real / b as real)
    else 0
  }

  lemma CeilQuotientCovers(a: int, b: int)
    requires b > 0
    ensures Ceil(a as real / b as real) * b >= a
  {
    var q := a as real / b as real;
    var s := Ceil(q);
    assert q * b as real == a as real;
    MulLeq(q, s as real, b as real);
    RealOfProduct(s, b);
  }

  lemma CeilQuotientTight(a: int, b: int)
    requires b > 0
    ensures (Ceil(a as real / b as real) - 1) * b < a
  {
    var q := a as real / b as real;
    var s := Ceil(q);
    assert q * b as real == a as real;
    MulLess(s as real - 1.0, q, b as real);
    RealOfProduct(s - 1, b);
  }

  /** A multiple of a positive divisor divides exactly. */
  lemma MulDivExact(t: int, n: int)
    ensures n > 0 ==> (t * n) / n == t && (t * n) % n == 0
  {
    if n > 0 {
      var q := (t * n) / n;
      var r := (t * n) % n;
      assert (t - q) * n == r;
      if t - q >= 1 {
        MulMono(1, t - q, n);
        assert false;
      } else if t - q <= -1 {
        MulMono(t - q, -1, n);
        assert false;
      }
    }
  }

  lemma RealOfProduct(s: int, b: int)
    ensures (s * b) as real == s as real * b as real
  {
  }

  /** A percentage in [0,100] of a non-negative whole lies between zero and the whole. */
  lemma PercentPart(whole: real, pct: real, part: real)
    requires 100.0 * part == whole * pct
    ensures 0.0 <= whole && 0.0 <= pct <= 100.0 ==> 0.0 <= part <= whole
  {
    MulLeq(0.0, pct, whole);
    MulLeq(pct, 100.0, whole);
  }

  lemma MulLeq(x: real, y: real, c: real)
    ensures x <= y && c >= 0.0 ==> x * c <= y * c
  {
  }

  /** A non-negative value scaled by a factor of at least one (resp. at
      least zero) is no smaller than itself (resp. zero). */
  lemma ScaleBounds(x: real, m: real)
    ensures x >= 0.0 && m >= 1.0 ==> x <= x * m
    ensures x >= 0.0 && m >= 0.0 ==> 0.0 <= x * m
  {
  }

  /** A percentage in [0,100] of a non-negative value, as `x * (pct / 100)`. */
  lemma FractionBounds(x: real, pct: real)
    ensures 0.0 <= x && 0.0 <= pct <= 100.0 ==> 0.0 <= x * (pct / 100.0) <= x
    ensures x == 0.0 || pct == 0.0 ==> x * (pct / 100.0) == 0.0
  {
    if 0.0 <= x && 0.0 <= pct <= 100.0 {
      MulLeq(0.0, pct / 100.0, x);
      MulLeq(pct / 100.0, 1.0, x);
    }
  }

  /** A factor of a non-negative product with a positive other factor is not negative. */
  lemma NonNegFactor(a: real, n: real, s: real)
    requires n > 0.0 && a * n == s && s >= 0.0
    ensures a >= 0.0
  {
    if a < 0.0 { MulLess(a, 0.0, n); }
  }

  lemma MulLess(x: real, y: real, c: real)
    ensures x < y && c > 0.0 ==> x * c < y * c
  {
  }

  lemma MulMono(s: int, t: int, b: int)
    ensures s <= t && b >= 0 ==> s * b <= t * b
  {
  }

  /** The sum of a list of integer line items, first to last. */
  function SumInt(xs: seq<int>): int {
    if |xs| == 0 then 0 else xs[0] + SumInt(xs[1..])
  }

  lemma SumIntOfFour(a: int, b: int, c: int, d: int)
    ensures SumInt([a, b, c, d]) == a + b + c + d
  {
    assert [a, b, c, d][1..] == [b, c, d];
    assert [b, c, d][1..] == [c, d];
    assert [c, d][1..] == [d];
    assert [d][1..] == [];
    assert SumInt([d]) == d;
    assert SumInt([c, d]) == c + d;
    assert SumInt([b, c, d]) == b + c + d;
  }

  /** With no negative item, the sum is no smaller than any one item. */
  lemma {:induction false} SumIntBounds(xs: seq<int>)
    requires forall i :: 0 <= i < |xs| ==> xs[i] >= 0
    ensures SumInt(xs) >= 0
    ensures forall i :: 0 <= i < |xs| ==> xs[i] <= SumInt(xs)
  {
    if |xs| > 0 {
      SumIntBounds(xs[1..]);
      assert forall i :: 1 <= i < |xs| ==> xs[i] == xs[1..][i - 1];
    }
  }
}
