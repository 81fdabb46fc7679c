/** Three-component real vectors (Ruby's `Vector[x, y, z]`) and the
    magnitude `Vector#magnitude`, which is characterised by the norm laws it
    obeys rather than computed (no square root is modelled). */
module Vectors {

  datatype Vec3 = Vec3(x: real, y: real, z: real)

  function Minus(a: Vec3, b: Vec3): Vec3 {
    Vec3(a.x - b.x, a.y - b.y, a.z - b.z)
  }

  function Scale(k: real, v: Vec3): Vec3 {
    Vec3(k * v.x, k * v.y, k * v.z)
  }

  function Abs(k: real): real {
    if k < 0.0 then -k else k
  }

  /** `mag` behaves as a norm: it is never negative and scaling a vector by
      `k` scales its magnitude by `|k|`. Euclidean magnitude has both laws. */
  ghost predicate IsMagnitude(mag: Vec3 -> real) {
    && (forall v :: mag(v) >= 0.0)
    && (forall k, v :: mag(Scale(k, v)) == Abs(k) * mag(v))
  }

  /** Ruby's `Position.distance(p, q)`, i.e. `(p.vec - q.vec).magnitude`. */
  function Distance(mag: Vec3 -> real, p: Vec3, q: Vec3): real {
    mag(Minus(p, q))
  }

  lemma DistanceNonNegative(mag: Vec3 -> real, p: Vec3, q: Vec3)
    requires IsMagnitude(mag)
    ensures Distance(mag, p, q) >= 0.0
  {
  }

  /** Distance is symmetric, because q - p is (p - q) scaled by -1. */
  lemma DistanceSymmetric(mag: Vec3 -> real, p: Vec3, q: Vec3)
    requires IsMagnitude(mag)
    ensures Distance(mag, p, q) == Distance(mag, q, p)
  {
    assert Minus(q, p) == Scale(-1.0, Minus(p, q));
    assert mag(Scale(-1.0, Minus(p, q))) == Abs(-1.0) * mag(Minus(p, q));
  }

  /** A point is at distance zero from itself. */
  lemma DistanceToSelf(mag: Vec3 -> real, p: Vec3)
    requires IsMagnitude(mag)
    ensures Distance(mag, p, p) == 0.0
  {
    assert Minus(p, p) == Scale(0.0, Minus(p, p));
    assert mag(Scale(0.0, Minus(p, p))) == Abs(0.0) * mag(Minus(p, p));
  }

  /** The per-axis average of two vectors. */
  function Average(a: Vec3, b: Vec3): Vec3 {
    Vec3((a.x + b.x) / 2.0, (a.y + b.y) / 2.0, (a.z + b.z) / 2.0)
  }

  /** The average is equidistant from both ends, at half their distance. */
  lemma AverageEquidistant(mag: Vec3 -> real, a: Vec3, b: Vec3)
    requires IsMagnitude(mag)
    ensures Distance(mag, Average(a, b), a) == Distance(mag, a, b) / 2.0
    ensures Distance(mag, Average(a, b), b) == Distance(mag, a, b) / 2.0
  {
    var m := Average(a, b);
    assert Minus(m, a) == Scale(0.5, Minus(b, a));
    assert Minus(m, b) == Scale(0.5, Minus(a, b));
    assert mag(Scale(0.5, Minus(b, a))) == Abs(0.5) * mag(Minus(b, a));
    assert mag(Scale(0.5, Minus(a, b))) == Abs(0.5) * mag(Minus(a, b));
    DistanceSymmetric(mag, a, b);
  }
}
