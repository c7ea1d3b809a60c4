/** Three-component vectors over the reals and the helpers the force rules are built from.
    Single-precision rounding is not modelled: every component is a mathematical real. */
module Vector3 {

  datatype V3 = V3(x: real, y: real, z: real)

  const Zero: V3 := V3(0.0, 0.0, 0.0)

  function Add(a: V3, b: V3): V3
  {
    V3(a.x + b.x, a.y + b.y, a.z + b.z)
  }

  function Sub(a: V3, b: V3): V3
  {
    V3(a.x - b.x, a.y - b.y, a.z - b.z)
  }

  function Mul(a: V3, s: real): V3
  {
    V3(a.x * s, a.y * s, a.z * s)
  }

  /** Division by zero yields infinities in single precision; over the reals it is excluded. */
  function Div(a: V3, s: real): V3
    requires s != 0.0
  {
    V3(a.x / s, a.y / s, a.z / s)
  }

  function Dot(a: V3, b: V3): real
  {
    a.x * b.x + a.y * b.y + a.z * b.z
  }

  function Cross(a: V3, b: V3): V3
  {
    V3(a.y * b.z - a.z * b.y,
       a.z * b.x - a.x * b.z,
       a.x * b.y - a.y * b.x)
  }

  // ---------------------------------------------------------------------------
  // Square roots. Dafny's reals come with no square root, so `sqrtf` is the
  // (unique) non-negative root, defined wherever one exists.

  predicate IsRoot(x: real, r: real)
  {
    r >= 0.0 && r * r == x
  }

  ghost predicate HasRoot(x: real)
  {
    exists r :: IsRoot(x, r)
  }

  lemma SquareLess(r: real, s: real)
    requires 0.0 <= r < s
    ensures r * r < s * s
  {
    assert (s - r) * (s + r) == s * s - r * r;
    assert (s - r) * (s + r) > 0.0 by { PositiveProduct(s - r, s + r); }
  }

  lemma PositiveProduct(a: real, b: real)
    requires a > 0.0 && b > 0.0
    ensures a * b > 0.0
  {
  }

  lemma NonnegProduct(a: real, b: real)
    requires a >= 0.0 && b >= 0.0
    ensures a * b >= 0.0
  {
    if a > 0.0 && b > 0.0 {
      PositiveProduct(a, b);
    }
  }

  /** A real number has at most one non-negative square root. */
  lemma RootUnique(x: real, r: real, s: real)
    requires IsRoot(x, r) && IsRoot(x, s)
    ensures r == s
  {
    if r < s {
      SquareLess(r, s);
    } else if s < r {
      SquareLess(s, r);
    }
  }

  function Sqrt(x: real): (r: real)
    requires HasRoot(x)
    ensures IsRoot(x, r)
  {
    assert forall r, s | IsRoot(x, r) && IsRoot(x, s) :: r == s by {
      forall r, s | IsRoot(x, r) && IsRoot(x, s) ensures r == s {
        RootUnique(x, r, s);
      }
    }
    var r :| IsRoot(x, r); r
  }

  lemma SqrtOfSquare(y: real)
    requires y >= 0.0
    ensures HasRoot(y * y) && Sqrt(y * y) == y
  {
    assert IsRoot(y * y, y);
    RootUnique(y * y, y, Sqrt(y * y));
  }

  /** The vectors whose Euclidean length exists as a real of this model (over the
      mathematical reals, every vector). */
  ghost predicate Measurable(a: V3)
  {
    HasRoot(Dot(a, a))
  }

  function Len(a: V3): (r: real)
    requires Measurable(a)
    ensures r >= 0.0 && r * r == Dot(a, a)
  {
    Sqrt(Dot(a, a))
  }

  // ---------------------------------------------------------------------------
  // Algebraic laws of the helpers.

  lemma AddCommutes(a: V3, b: V3)
    ensures Add(a, b) == Add(b, a)
  {
  }

  lemma SubAddCancel(a: V3, b: V3)
    ensures Sub(Add(a, b), b) == a
  {
  }

  lemma MulDivCancel(a: V3, s: real)
    requires s != 0.0
    ensures Mul(Div(a, s), s) == a
  {
  }

  lemma DotSymmetric(a: V3, b: V3)
    ensures Dot(a, b) == Dot(b, a)
  {
  }

  lemma ZeroProduct(a: real, b: real)
    requires a * b == 0.0
    ensures a == 0.0 || b == 0.0
  {
  }

  lemma SquareNonneg(x: real)
    ensures x * x >= 0.0
    ensures x * x == 0.0 <==> x == 0.0
  {
    if x * x == 0.0 {
      ZeroProduct(x, x);
    }
    if x < 0.0 {
      assert x * x == (-x) * (-x);
    }
  }

  /** A vector's squared length is never negative, and is zero exactly for the zero vector. */
  lemma DotSelfNonneg(a: V3)
    ensures Dot(a, a) >= 0.0
    ensures Dot(a, a) == 0.0 <==> a == Zero
  {
    SquareNonneg(a.x);
    SquareNonneg(a.y);
    SquareNonneg(a.z);
  }

  lemma CrossAntisymmetric(a: V3, b: V3)
    ensures Cross(a, b) == Mul(Cross(b, a), -1.0)
  {
  }

  lemma CrossOrthogonal(a: V3, b: V3)
    ensures Dot(Cross(a, b), a) == 0.0
    ensures Dot(Cross(a, b), b) == 0.0
  {
  }

  /** The length of a vector is zero exactly when the vector is. */
  lemma LenZero(a: V3)
    requires Measurable(a)
    ensures Len(a) == 0.0 <==> a == Zero
  {
    DotSelfNonneg(a);
    RootZero(Dot(a, a), Len(a));
  }

  /** A square root is zero exactly when its radicand is. */
  lemma RootZero(x: real, r: real)
    requires IsRoot(x, r)
    ensures r == 0.0 <==> x == 0.0
  {
    SquareNonneg(r);
  }

  /** Scaling v twice scales its product with itself by both factors. */
  lemma DotScaled(v: V3, s: real, t: real)
    ensures Dot(Mul(Mul(v, s), t), v) == (s * t) * Dot(v, v)
  {
    assert v.x * s * t * v.x == (s * t) * (v.x * v.x);
    assert v.y * s * t * v.y == (s * t) * (v.y * v.y);
    assert v.z * s * t * v.z == (s * t) * (v.z * v.z);
  }

  /** Scaling by the reciprocal of n cancels one factor of n. */
  lemma ReciprocalCancel(k: real, n: real, s: real)
    requires k * n == 1.0
    ensures (k * s) * (n * n) == n * s
  {
    assert (k * s) * (n * n) == (k * n) * (n * s);
  }

  /** Scaling the zero vector leaves it zero. */
  lemma MulZero(s: real)
    ensures Mul(Zero, s) == Zero
  {
  }

  /** Scaling a reversed vector twice reverses the twice-scaled vector. */
  lemma MulNegated(a: V3, s: real, t: real)
    ensures Mul(Mul(Mul(a, -1.0), s), t) == Mul(Mul(Mul(a, s), t), -1.0)
  {
  }

  /** Reversing a difference does not change its length, so `len3(a - b) == len3(b - a)`. */
  lemma LenSubSymmetric(a: V3, b: V3)
    requires Measurable(Sub(a, b))
    ensures Measurable(Sub(b, a)) && Len(Sub(b, a)) == Len(Sub(a, b))
  {
    assert Dot(Sub(b, a), Sub(b, a)) == Dot(Sub(a, b), Sub(a, b));
    assert IsRoot(Dot(Sub(b, a), Sub(b, a)), Len(Sub(a, b)));
    RootUnique(Dot(Sub(b, a), Sub(b, a)), Len(Sub(b, a)), Len(Sub(a, b)));
  }

  /** A vector divided by its length n has length one. */
  lemma UnitLength(d: V3, n: real)
    requires n != 0.0 && n * n == Dot(d, d)
    ensures Dot(Div(d, n), Div(d, n)) == 1.0
  {
    var u := Div(d, n);
    var nn := n * n;
    assert u.x * n == d.x && u.y * n == d.y && u.z * n == d.z;
    assert Dot(d, d) == Dot(u, u) * nn;
    SquareNonneg(n);
    assert (Dot(u, u) - 1.0) * nn == 0.0;
    ZeroProduct(Dot(u, u) - 1.0, nn);
  }
}
