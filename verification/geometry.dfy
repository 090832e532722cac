/** The small result wrapper used where the source can produce "no value". */
module Options {
  datatype Option<+T> = None | Some(value: T)
}

/**
  Three-component vectors over the reals, standing for three.js `Vector3`,
  with the few operations the editor's interaction code uses.  Square roots
  are not computable here: a Euclidean distance is a function value `dist`
  that the caller supplies and that `IsDistance` pins down.
*/
module Geometry {

  datatype Vec3 = Vec3(x: real, y: real, z: real)

  const Zero: Vec3 := Vec3(0.0, 0.0, 0.0)

  function Add(a: Vec3, b: Vec3): Vec3 {
    Vec3(a.x + b.x, a.y + b.y, a.z + b.z)
  }

  function Sub(a: Vec3, b: Vec3): Vec3 {
    Vec3(a.x - b.x, a.y - b.y, a.z - b.z)
  }

  function Scale(a: Vec3, k: real): Vec3 {
    Vec3(a.x * k, a.y * k, a.z * k)
  }

  function Neg(a: Vec3): Vec3 {
    Vec3(-a.x, -a.y, -a.z)
  }

  /** `computeMidpoint`, taken to be (a + b) / 2. */
  function Midpoint(a: Vec3, b: Vec3): Vec3 {
    Vec3((a.x + b.x) / 2.0, (a.y + b.y) / 2.0, (a.z + b.z) / 2.0)
  }

  /** The squared Euclidean distance, `distanceToSquared`. */
  function DistSq(a: Vec3, b: Vec3): (r: real)
    ensures r >= 0.0
  {
    (a.x - b.x) * (a.x - b.x) + (a.y - b.y) * (a.y - b.y) + (a.z - b.z) * (a.z - b.z)
  }

  /** `dist` is the Euclidean distance: the non-negative square root of `DistSq`. */
  ghost predicate IsDistance(dist: (Vec3, Vec3) -> real) {
    forall a, b :: dist(a, b) >= 0.0 && dist(a, b) * dist(a, b) == DistSq(a, b)
  }

  /** Between non-negative reals, comparing squares compares the numbers. */
  lemma SquareMonotone(a: real, b: real)
    requires 0.0 <= a && 0.0 <= b
    requires a * a <= b * b
    ensures a <= b
  {
    SquareStrict(a, b);
  }

  /** Above a non-negative number, squaring keeps the strict order. */
  lemma SquareStrict(a: real, b: real)
    requires 0.0 <= b
    ensures a > b ==> a * a > b * b
  {
    if a > b {
      assert (a - b) * a > 0.0;
      assert (a - b) * b >= 0.0;
      assert a * a - b * b == (a - b) * a + (a - b) * b;
    }
  }

  /** Scaling the offset between two points by k scales the squared distance by k * k. */
  lemma DistSqScaled(p: Vec3, q: Vec3, k: real)
    ensures DistSq(Add(q, Scale(Sub(p, q), k)), q) == k * k * DistSq(p, q)
  {
    var d := Sub(p, q);
    assert Sub(Add(q, Scale(d, k)), q) == Scale(d, k);
    calc {
      DistSq(Add(q, Scale(d, k)), q);
      (d.x * k) * (d.x * k) + (d.y * k) * (d.y * k) + (d.z * k) * (d.z * k);
      k * k * (d.x * d.x + d.y * d.y + d.z * d.z);
    }
  }

  /** Two points whose offset is k times p are k * k times p's squared length apart. */
  lemma DistSqOfOffset(a: Vec3, b: Vec3, p: Vec3, k: real)
    requires Sub(b, a) == Scale(p, k)
    ensures DistSq(a, b) == k * k * DistSq(Zero, p)
  {
    calc {
      DistSq(a, b);
      (p.x * k) * (p.x * k) + (p.y * k) * (p.y * k) + (p.z * k) * (p.z * k);
      k * k * (p.x * p.x + p.y * p.y + p.z * p.z);
    }
  }

  /** A point whose offset from q is shrunk by a factor in [0, 1] is no farther from q. */
  lemma DistanceShrinks(dist: (Vec3, Vec3) -> real, p: Vec3, q: Vec3, k: real)
    requires IsDistance(dist)
    requires 0.0 <= k <= 1.0
    ensures dist(Add(q, Scale(Sub(p, q), k)), q) <= dist(p, q)
  {
    var p' := Add(q, Scale(Sub(p, q), k));
    DistSqScaled(p, q, k);
    assert k * k <= 1.0 by {
      assert k * k <= k * 1.0;
    }
    assert k * k * DistSq(p, q) <= DistSq(p, q) by {
      assert (1.0 - k * k) * DistSq(p, q) >= 0.0;
    }
    SquareMonotone(dist(p', q), dist(p, q));
  }
}
