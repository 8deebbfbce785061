/**
 * The floating-point library calls the source makes (`std::sqrt`, `std::atan2`,
 * `std::acos`, `std::cos`, `std::sin`, `std::stof`, and the `normal` helper that
 * is not part of this model) are not given a definition here: they are fields of
 * a `Numerics` record that every caller receives, so every property proved holds
 * for any implementation of them that obeys `ValidNumerics`. Rounding of `float`
 * and `double` is not modelled; arithmetic is exact over the reals.
 */
module Numerics {
  import opened Vec

  datatype Numerics = Numerics(
    sqrt: real -> real,
    atan2: (real, real) -> real,
    acos: real -> real,
    cos: real -> real,
    sin: real -> real,
    normal: Vector2 -> Vector2,
    /** `std::stof` applied to a token (parse errors are not modelled). */
    stof: string -> real,
    /**
     * The two `std::stof` calls that read an `x:y` slider coordinate: given the
     * text from the coordinate part's first character to the end of the line,
     * the x value and then the y value after the character that ends it.
     */
    parsePoint: string -> Vector2)

  /** The only laws of the library calls that the model relies on. */
  ghost predicate ValidNumerics(num: Numerics)
  {
    && (forall v: real {:trigger num.sqrt(v)} :: v >= 0.0 ==> num.sqrt(v) >= 0.0)
    && (forall v: real {:trigger num.acos(v)} :: -1.0 < v < 1.0 ==> num.acos(v) > 0.0)
  }

  /** `length(p) = sqrt(length_squared(p))`. */
  function Length(num: Numerics, p: Vector2): real
  {
    num.sqrt(LengthSquared(p))
  }

  lemma LengthNonNegative(num: Numerics, p: Vector2)
    requires ValidNumerics(num)
    ensures Length(num, p) >= 0.0
  {
  }

  /** `M_PI` as written in the source (a double constant). */
  const Pi: real := 3.141592653589793

  /** Conversion of a floating value to an integer type: truncation toward zero. */
  function Trunc(v: real): (r: int)
    ensures v >= 0.0 ==> r as real <= v < r as real + 1.0
    ensures v < 0.0 ==> r as real - 1.0 < v <= r as real
  {
    if v >= 0.0 then v.Floor else -((-v).Floor)
  }

  /** `std::ceil`, the least integer not below `v`. */
  function Ceil(v: real): (r: int)
    ensures r as real >= v
    ensures r as real - 1.0 < v
  {
    -((-v).Floor)
  }
}
