/** The immutable two-dimensional value used for positions, sizes and speeds. */
module Vectors {

  datatype Vec = Vec(x: real, y: real) {

    /** Component-wise sum; subtracting `other` again gives back `this`. */
    function Plus(other: Vec): (r: Vec)
      ensures r.x - other.x == x && r.y - other.y == y
    {
      Vec(x + other.x, y + other.y)
    }

    /** Both components scaled by `factor`; a non-zero factor can be undone. */
    function Times(factor: real): (r: Vec)
      ensures factor != 0.0 ==> r.x / factor == x && r.y / factor == y
      ensures factor == 0.0 ==> r == Vec(0.0, 0.0)
    {
      Vec(x * factor, y * factor)
    }
  }

  const Zero: Vec := Vec(0.0, 0.0)

  lemma PlusCommutes(a: Vec, b: Vec)
    ensures a.Plus(b) == b.Plus(a)
  {
  }

  lemma PlusZero(a: Vec)
    ensures a.Plus(Zero) == a && Zero.Plus(a) == a
  {
  }

  /** Scaling distributes over the sum: the pixel centre `(pos + size/2)·scale` is also `pos·scale + size/2·scale`. */
  lemma TimesDistributes(a: Vec, b: Vec, k: real)
    ensures a.Plus(b).Times(k) == a.Times(k).Plus(b.Times(k))
  {
  }
}
