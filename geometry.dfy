/**
 * Exact-real geometry used by the stack builder: Cartesian vectors,
 * fractional in-plane coordinates, the `% 1` wrap, and the hexagonal
 * in-plane basis of Setyawan and Curtarolo (2010).
 */
module Geometry {

  /** A Cartesian 3-vector (one row of a lattice matrix, or one atom position). */
  datatype Vec3 = Vec3(x: real, y: real, z: real)

  /** In-plane fractional coordinates along the first two lattice vectors. */
  datatype Fractional = Fractional(a: real, b: real)

  /** A 3x3 lattice matrix, one basis vector per row. */
  datatype Lattice = Lattice(a1: Vec3, a2: Vec3, a3: Vec3)

  function Dot(u: Vec3, v: Vec3): real
  {
    u.x * v.x + u.y * v.y + u.z * v.z
  }

  predicate IsInteger(x: real)
  {
    x.Floor as real == x
  }

  /** `x % 1` on exact reals: the fractional part x - floor(x). */
  function Wrap(x: real): (r: real)
    ensures 0.0 <= r < 1.0
    ensures IsInteger(x - r)
  {
    x - x.Floor as real
  }

  /** The two properties of Wrap's contract determine its result. */
  lemma WrapUnique(x: real, r: real)
    requires 0.0 <= r < 1.0
    requires IsInteger(x - r)
    ensures Wrap(x) == r
  {
  }

  /** Wrapping ignores whole periods: (x + n) % 1 == x % 1. */
  lemma WrapPeriodic(x: real, n: int)
    ensures Wrap(x + n as real) == Wrap(x)
  {
    var r := Wrap(x);
    var m := x.Floor + n;
    assert r == x - x.Floor as real;
    assert x + n as real - r == m as real;
    assert (m as real).Floor == m;
    WrapUnique(x + n as real, r);
  }

  /** First basis vector a * (1/2, -sqrt(3)/2, 0). */
  function BasisA1(a: real, sqrt3: real): Vec3
  {
    Vec3(a * 0.5, a * -(sqrt3 / 2.0), a * 0.0)
  }

  /** Second basis vector a * (1/2, sqrt(3)/2, 0). */
  function BasisA2(a: real, sqrt3: real): Vec3
  {
    Vec3(a * 0.5, a * (sqrt3 / 2.0), a * 0.0)
  }

  /** The in-plane part of f . [a1; a2], completed with the height z. */
  function ToCartesian(a1: Vec3, a2: Vec3, f: Fractional, z: real): Vec3
  {
    Vec3(f.a * a1.x + f.b * a2.x, f.a * a1.y + f.b * a2.y, z)
  }

  /**
   * The basis is hexagonal: both in-plane vectors have length |a|, they
   * enclose 120 degrees (cosine -1/2) and lie in the plane z = 0.
   */
  lemma HexagonalBasis(a: real, sqrt3: real)
    requires sqrt3 * sqrt3 == 3.0
    ensures Dot(BasisA1(a, sqrt3), BasisA1(a, sqrt3)) == a * a
    ensures Dot(BasisA2(a, sqrt3), BasisA2(a, sqrt3)) == a * a
    ensures Dot(BasisA1(a, sqrt3), BasisA2(a, sqrt3)) == -(a * a) / 2.0
    ensures BasisA1(a, sqrt3).z == 0.0 && BasisA2(a, sqrt3).z == 0.0
  {
  }
}
