/** Points in space and the folds (sum, mean, minimum, maximum) the classifier takes over lists of reals. */
module Geometry {

  /** A numpy 3-vector. */
  datatype Vec3 = Vec3(x: real, y: real, z: real)

  const Origin := Vec3(0.0, 0.0, 0.0)

  function Sub(a: Vec3, b: Vec3): Vec3 {
    Vec3(a.x - b.x, a.y - b.y, a.z - b.z)
  }

  function Dot(a: Vec3, b: Vec3): real {
    a.x * b.x + a.y * b.y + a.z * b.z
  }

  /** np.cross: the result is perpendicular to both factors. */
  function Cross(a: Vec3, b: Vec3): (r: Vec3)
    ensures Dot(r, a) == 0.0 && Dot(r, b) == 0.0
  {
    Vec3(a.y * b.z - a.z * b.y, a.z * b.x - a.x * b.z, a.x * b.y - a.y * b.x)
  }

  lemma CrossAntiCommutes(a: Vec3, b: Vec3)
    ensures Cross(b, a) == Vec3(-Cross(a, b).x, -Cross(a, b).y, -Cross(a, b).z)
  {
  }

  /** Squared Euclidean norm, the square of np.linalg.norm. */
  function SqNorm(a: Vec3): (r: real)
    ensures r >= 0.0
  {
    SquareNonneg(a.x);
    SquareNonneg(a.y);
    SquareNonneg(a.z);
    a.x * a.x + a.y * a.y + a.z * a.z
  }

  function SqDist(a: Vec3, b: Vec3): real {
    SqNorm(Sub(a, b))
  }

  lemma SquareNonneg(r: real)
    ensures r * r >= 0.0
    ensures r != 0.0 ==> r * r > 0.0
  {
    if r > 0.0 {
      PositiveProduct(r, r);
    } else if r < 0.0 {
      PositiveProduct(-r, -r);
    }
  }

  lemma PositiveProduct(a: real, b: real)
    requires a > 0.0 && b > 0.0
    ensures a * b > 0.0
  {
  }

  /** Multiplying by a positive factor keeps a strict order. */
  lemma ScaleStrict(x: real, y: real, n: real)
    requires n > 0.0
    ensures x < y ==> x * n < y * n
  {
    if x < y {
      PositiveProduct(y - x, n);
      assert y * n - x * n == (y - x) * n;
    }
  }

  /** A coordinate bounded by a squared distance: |a.z - b.z| < d when the squared distance is below d * d. */
  lemma {:induction false} AxisWithinDistance(a: Vec3, b: Vec3, d: real)
    requires d > 0.0 && SqDist(a, b) < d * d
    ensures Abs(a.x - b.x) < d && Abs(a.y - b.y) < d && Abs(a.z - b.z) < d
  {
    var s := Sub(a, b);
    assert SqDist(a, b) == s.x * s.x + s.y * s.y + s.z * s.z;
    SquareNonneg(s.x);
    SquareNonneg(s.y);
    SquareNonneg(s.z);
    var x2, y2, z2 := s.x * s.x, s.y * s.y, s.z * s.z;
    assert x2 + y2 + z2 < d * d;
    assert x2 < d * d && y2 < d * d && z2 < d * d;
    SquareBelow(s.x, d);
    SquareBelow(s.y, d);
    SquareBelow(s.z, d);
  }

  lemma SquareBelow(r: real, d: real)
    requires d > 0.0 && r * r < d * d
    ensures Abs(r) < d
  {
    var a := Abs(r);
    assert a * a == r * r;
    SquareMonotone(d, a);
  }

  lemma SquareMonotone(d: real, a: real)
    requires d > 0.0
    ensures d <= a ==> d * d <= a * a
  {
    if d < a {
      PositiveProduct(a - d, a + d);
      assert a * a - d * d == (a - d) * (a + d);
    }
  }

  /** numpy's truthiness test `.any()` on a 3-vector. */
  predicate IsNonzero(v: Vec3) {
    v != Origin
  }

  function Abs(r: real): real {
    if r < 0.0 then -r else r
  }

  /** Sum of a list, folded from the left as Python adds. */
  function Sum(xs: seq<real>): real {
    if xs == [] then 0.0 else Sum(xs[..|xs| - 1]) + xs[|xs| - 1]
  }

  /** np.mean of a non-empty list. */
  function Mean(xs: seq<real>): real
    requires |xs| > 0
  {
    Sum(xs) / (|xs| as real)
  }

  /** Python's min over a non-empty list: a member of the list below every member. */
  function Min(xs: seq<real>): (m: real)
    requires |xs| > 0
    ensures m in xs
    ensures forall i :: 0 <= i < |xs| ==> m <= xs[i]
  {
    if |xs| == 1 then xs[0]
    else
      var m' := Min(xs[..|xs| - 1]);
      assert forall i :: 0 <= i < |xs| - 1 ==> xs[..|xs| - 1][i] == xs[i];
      if xs[|xs| - 1] < m' then xs[|xs| - 1] else m'
  }

  /** Python's max over a non-empty list: a member of the list above every member. */
  function Max(xs: seq<real>): (m: real)
    requires |xs| > 0
    ensures m in xs
    ensures forall i :: 0 <= i < |xs| ==> xs[i] <= m
  {
    if |xs| == 1 then xs[0]
    else
      var m' := Max(xs[..|xs| - 1]);
      assert forall i :: 0 <= i < |xs| - 1 ==> xs[..|xs| - 1][i] == xs[i];
      if xs[|xs| - 1] > m' then xs[|xs| - 1] else m'
  }

  /** The transcendental functions the source takes from numpy: np.arctan2 and the square root inside
      np.linalg.norm. They stay uninterpreted. */
  datatype Numerics = Numerics(atan2: (real, real) -> real, sqrt: real -> real)
}
