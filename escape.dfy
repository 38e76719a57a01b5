/**
 * The escape-time evaluator `mandelbrot(c, max_iter)`, shared (as identical
 * copies) by all three scripts.
 *
 * The orbit z_0 = 0, z_{n+1} = z_n^2 + c is computed on exact reals. The
 * source tests `abs(z) > 2` BEFORE each update and returns the loop index of
 * the first escape, or `max_iter` when the loop runs out; for `max_iter <= 0`
 * the loop is empty and `max_iter` comes back unchanged.
 */
module Escape {

  /** A point of the complex plane (Python's `complex`, here with exact parts). */
  datatype Complex = Complex(re: real, im: real)

  const Zero: Complex := Complex(0.0, 0.0)

  function Add(a: Complex, b: Complex): Complex {
    Complex(a.re + b.re, a.im + b.im)
  }

  /** z**2, i.e. z * z. */
  function Square(z: Complex): Complex {
    Complex(z.re * z.re - z.im * z.im, 2.0 * z.re * z.im)
  }

  /**
   * The escape test `abs(z) > 2` (escape radius 2), in its square-root-free
   * form |z|^2 > 4.
   */
  predicate Escaped(z: Complex) {
    z.re * z.re + z.im * z.im > 4.0
  }

  /** `abs(z) > 2` and |z|^2 > 4 agree: `a` is the non-negative square root of |z|^2. */
  lemma ModulusTest(z: Complex, a: real)
    requires 0.0 <= a && a * a == z.re * z.re + z.im * z.im
    ensures a > 2.0 <==> Escaped(z)
  {
    if a > 2.0 {
      assert a * a > 2.0 * a > 4.0;
    } else {
      assert a * a <= 2.0 * a <= 4.0;
    }
  }

  /** The n-th point z_n of the orbit of c. */
  function Orbit(c: Complex, n: nat): Complex {
    if n == 0 then Zero else Add(Square(Orbit(c, n - 1)), c)
  }

  /** Whether the n-th orbit point of c lies outside radius 2. */
  predicate EscapedAt(c: Complex, n: nat) {
    Escaped(Orbit(c, n))
  }

  /**
   * The loop of `mandelbrot` resumed at index k with bound m: the first index
   * j in [k, m) whose orbit point has escaped, or m when there is none.
   */
  function EscapeSearch(c: Complex, k: nat, m: int): (r: int)
    ensures k >= m ==> r == m
    ensures k < m ==> k <= r <= m
    ensures k < m ==> forall j :: k <= j < r ==> !EscapedAt(c, j)
    ensures 0 <= r < m ==> EscapedAt(c, r)
    ensures k < m && !EscapedAt(c, k) ==> r > k
    decreases m - k
  {
    if k >= m then m
    else if EscapedAt(c, k) then k
    else EscapeSearch(c, k + 1, m)
  }

  /**
   * The value `mandelbrot(c, m)` returns: the first index whose orbit point
   * lies outside radius 2, capped at m; m itself when m <= 0.
   */
  function EscapeTime(c: Complex, m: int): (r: int)
    ensures m <= 0 ==> r == m
    ensures m >= 0 ==> 0 <= r <= m
    ensures m >= 1 ==> r >= 1
    ensures forall j :: 0 <= j < r ==> !EscapedAt(c, j)
    ensures 0 <= r < m ==> EscapedAt(c, r)
  {
    StartDoesNotEscape(c);
    EscapeSearch(c, 0, m)
  }

  /** `mandelbrot(c, max_iter)`: the loop with its check before the update. */
  method Mandelbrot(c: Complex, maxIter: int) returns (n: int)
    ensures n == EscapeTime(c, maxIter)
  {
    var z := Zero;
    var k := 0;
    while k < maxIter
      invariant 0 <= k
      invariant z == Orbit(c, k)
      invariant EscapeSearch(c, k, maxIter) == EscapeTime(c, maxIter)
    {
      if Escaped(z) {
        return k;
      }
      z := Add(Square(z), c);
      k := k + 1;
    }
    return maxIter;
  }

  function Min(a: int, b: int): int {
    if a <= b then a else b
  }

  /**
   * The escape count is determined by its characterisation: in [0, m], no
   * escape before it, and an escape at it unless it is the saturation value.
   */
  lemma EscapeTimeUnique(c: Complex, m: int, r: int)
    requires 0 <= r <= m
    requires forall j :: 0 <= j < r ==> !EscapedAt(c, j)
    requires r < m ==> EscapedAt(c, r)
    ensures EscapeTime(c, m) == r
  {
  }

  /** With k the first index of an escaped orbit point, the count is min(k, m). */
  lemma FirstEscapeIsCount(c: Complex, m: int, k: nat)
    requires EscapedAt(c, k)
    requires forall j :: 0 <= j < k ==> !EscapedAt(c, j)
    ensures EscapeTime(c, m) == Min(k, m)
  {
    if m >= 0 {
      EscapeTimeUnique(c, m, Min(k, m));
    }
  }

  /** An orbit that does not escape within m steps saturates at m. */
  lemma NoEscapeSaturates(c: Complex, m: nat)
    requires forall j :: 0 <= j < m ==> !EscapedAt(c, j)
    ensures EscapeTime(c, m) == m
  {
    EscapeTimeUnique(c, m, m);
  }

  /**
   * Monotone in the bound: a larger bound never lowers the count, and a count
   * below its bound (a real escape) is the same under every larger bound.
   */
  lemma EscapeTimeMonotone(c: Complex, m: int, m': int)
    requires m <= m'
    ensures EscapeTime(c, m) <= EscapeTime(c, m')
    ensures EscapeTime(c, m) < m ==> EscapeTime(c, m') == EscapeTime(c, m)
  {
  }

  /** The orbit of c = 0 stays at 0. */
  lemma {:induction false} OrbitOfZero(n: nat)
    ensures Orbit(Zero, n) == Zero
  {
    if n > 0 {
      OrbitOfZero(n - 1);
    }
  }

  /** c = 0 never escapes: the count is the bound, whatever the bound. */
  lemma ZeroSaturates(m: int)
    ensures EscapeTime(Zero, m) == m
  {
    var r := EscapeTime(Zero, m);
    if 0 <= r < m {
      OrbitOfZero(r);
    }
  }

  /** The first orbit point z_0 = 0 never escapes. */
  lemma StartDoesNotEscape(c: Complex)
    ensures !EscapedAt(c, 0)
  {
    assert Orbit(c, 0) == Zero;
  }

  /** The second orbit point z_1 is c itself. */
  lemma FirstOrbitPoint(c: Complex)
    ensures Orbit(c, 1) == c
  {
    assert Orbit(c, 0) == Zero;
    assert Add(Square(Zero), c) == c;
  }

  /** A point outside radius 2 is caught by the second check: count 1. */
  lemma OutsideRadiusEscapesAtOne(c: Complex, m: int)
    requires Escaped(c)
    requires m >= 1
    ensures EscapeTime(c, m) == 1
  {
    FirstOrbitPoint(c);
    StartDoesNotEscape(c);
    assert EscapeTime(c, m) == EscapeSearch(c, 1, m);
  }

  /** For c = 2 the second orbit point is 2^2 + 2 = 6. */
  lemma OrbitOfTwo(c: Complex)
    requires c.re == 2.0 && c.im == 0.0
    ensures !EscapedAt(c, 1) && EscapedAt(c, 2)
  {
    FirstOrbitPoint(c);
    assert Orbit(c, 2) == Add(Square(c), c) == Complex(6.0, 0.0);
  }

  /** c = 2: z_1 = 2 lies on the circle (not outside), z_2 = 6 escapes. */
  lemma TwoEscapesAtTwo(c: Complex, m: int)
    requires c.re == 2.0 && c.im == 0.0
    requires m >= 2
    ensures EscapeTime(c, m) == 2
  {
    StartDoesNotEscape(c);
    OrbitOfTwo(c);
    EscapeAtTwo(c, m);
  }

  /** An orbit whose first escaped point is z_2 has count 2 under any bound >= 2. */
  lemma EscapeAtTwo(c: Complex, m: int)
    requires !EscapedAt(c, 1) && EscapedAt(c, 2)
    requires m >= 2
    ensures EscapeTime(c, m) == 2
  {
    StartDoesNotEscape(c);
    assert EscapeTime(c, m) == EscapeSearch(c, 1, m) == EscapeSearch(c, 2, m);
  }
}
