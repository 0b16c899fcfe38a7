/** Three-component vectors over the reals, standing for THREE.Vector3 and for
    the `{x, y, z}` records of main.js. Floating point is not modelled: every
    coordinate is an exact real. `Math.sqrt` is not definable here, so every
    operation that needs a square root takes it as a parameter `sqrt`. */
module Vectors {

  datatype Vec3 = Vec3(x: real, y: real, z: real)

  const Origin := Vec3(0.0, 0.0, 0.0)

  function Add(u: Vec3, v: Vec3): Vec3 {
    Vec3(u.x + v.x, u.y + v.y, u.z + v.z)
  }

  function Sub(u: Vec3, v: Vec3): Vec3 {
    Vec3(u.x - v.x, u.y - v.y, u.z - v.z)
  }

  function Scale(t: real, v: Vec3): Vec3 {
    Vec3(t * v.x, t * v.y, t * v.z)
  }

  /** x*x + y*y + z*z, the square of Vector3.length(). */
  function SqNorm(v: Vec3): real {
    v.x * v.x + v.y * v.y + v.z * v.z
  }

  lemma SquareSign(t: real)
    ensures t * t >= 0.0
    ensures t != 0.0 ==> t * t > 0.0
  {
    if t < 0.0 {
      calc { t * t; == (-t) * (-t); > 0.0; }
    } else if t > 0.0 {
      calc { t * t; > 0.0; }
    }
  }

  /** A product of two non-zero reals is non-zero. */
  lemma ProductNonZero(a: real, b: real)
    requires a != 0.0 && b != 0.0
    ensures a * b != 0.0
  {
    if a > 0.0 && b > 0.0 {
      calc { a * b; > 0.0; }
    } else if a > 0.0 {
      calc { a * b; == -(a * -b); < 0.0; }
    } else if b > 0.0 {
      calc { a * b; == -(-a * b); < 0.0; }
    } else {
      calc { a * b; == -a * -b; > 0.0; }
    }
  }

  /** A scaled vector is zero only when the factor or the vector is. */
  lemma ScaleZero(t: real, v: Vec3)
    ensures Scale(t, v) == Origin <==> t == 0.0 || v == Origin
  {
    if t != 0.0 && v != Origin {
      if v.x != 0.0 {
        ProductNonZero(t, v.x);
      } else if v.y != 0.0 {
        ProductNonZero(t, v.y);
      } else {
        ProductNonZero(t, v.z);
      }
    }
  }

  /** A squared length is never negative, and is zero only for the zero vector. */
  lemma SqNormSign(v: Vec3)
    ensures SqNorm(v) >= 0.0
    ensures SqNorm(v) > 0.0 <==> v != Origin
  {
    if v == Origin {
      calc { SqNorm(v); == 0.0 * 0.0 + 0.0 * 0.0 + 0.0 * 0.0; == 0.0; }
    } else {
      calc {
        SqNorm(v);
        == v.x * v.x + v.y * v.y + v.z * v.z;
        > { SquareSign(v.x); SquareSign(v.y); SquareSign(v.z); }
        0.0;
      }
    }
  }

  /** What a square-root routine is relied on for: it is positive exactly on
      positive arguments. Math.sqrt has this property (it yields 0 at 0 and
      NaN, which is not positive, below 0). */
  ghost predicate SqrtOk(sqrt: real -> real) {
    forall q :: sqrt(q) > 0.0 <==> q > 0.0
  }

  /** Vector3.length(). */
  function Length(v: Vec3, sqrt: real -> real): real {
    sqrt(SqNorm(v))
  }

  /** Vector3.distanceTo(). */
  function Distance(u: Vec3, v: Vec3, sqrt: real -> real): real {
    Length(Sub(u, v), sqrt)
  }

  /** Vector3.normalize(): divides by the length, or by 1 when the length
      is 0, so that the zero vector stays zero. */
  function Normalize(v: Vec3, sqrt: real -> real): Vec3 {
    var len := Length(v, sqrt);
    Scale(1.0 / (if len == 0.0 then 1.0 else len), v)
  }

  lemma DistancePositiveIff(u: Vec3, v: Vec3, sqrt: real -> real)
    requires SqrtOk(sqrt)
    ensures Distance(u, v, sqrt) > 0.0 <==> u != v
  {
    SqNormSign(Sub(u, v));
    assert Sub(u, v) == Origin <==> u == v;
  }
}
