/** The 2-D point type (include/osu_reader/vector2.h), over the reals. */
module Vec {

  datatype Vector2 = Vector2(x: real, y: real)

  /** `operator==`: both coordinates equal, which is structural equality. */
  predicate Eq(a: Vector2, b: Vector2)
    ensures Eq(a, b) <==> a == b
  {
    a.x == b.x && a.y == b.y
  }

  /** `operator!=` is written as the negation of `rhs == *this`. */
  predicate Neq(a: Vector2, b: Vector2)
    ensures Neq(a, b) <==> a != b
  {
    !Eq(b, a)
  }

  function Add(a: Vector2, b: Vector2): Vector2
  {
    Vector2(a.x + b.x, a.y + b.y)
  }

  /** Componentwise difference; adding `b` back undoes it. */
  function Sub(a: Vector2, b: Vector2): (r: Vector2)
    ensures Add(r, b) == a
  {
    Vector2(a.x - b.x, a.y - b.y)
  }

  /** Scalar product `d * p`. */
  function Scale(d: real, p: Vector2): Vector2
  {
    Vector2(d * p.x, d * p.y)
  }

  function Dot(a: Vector2, b: Vector2): real
  {
    a.x * b.x + a.y * b.y
  }

  function LengthSquared(p: Vector2): (r: real)
    ensures r == Dot(p, p)
    ensures r >= 0.0
  {
    p.x * p.x + p.y * p.y
  }

  function Midpoint(a: Vector2, b: Vector2): Vector2
  {
    Scale(0.5, Add(a, b))
  }

  lemma ScaleDistributes(d: real, a: Vector2, b: Vector2)
    ensures Scale(d, Add(a, b)) == Add(Scale(d, a), Scale(d, b))
  {
  }

  lemma MidpointProperties(a: Vector2, b: Vector2)
    ensures Midpoint(a, b) == Midpoint(b, a)
    ensures Midpoint(a, a) == a
  {
  }
}
