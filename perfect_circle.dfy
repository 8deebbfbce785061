/**
 * Circular-arc flattening (src/hitobject/perfect_circle.cpp, and the identical
 * functions at src/sliderpath.cpp:90-171): three control points that are not
 * nearly collinear define a circle through them, which is sampled from the
 * first point to the last; anything else falls back to Bézier flattening.
 */
module PerfectCircle {
  import opened Vec
  import opened Numerics
  import opened Bezier

  /** `2 * M_PI` in double precision, the step of the winding loop. */
  const TwoPi: real := 6.283185307179586

  /** `static_cast<float>(2 * M_PI)`, used when the arc is turned around. */
  const TwoPiFloat: real := 6.2831854820251465

  /** `1e-3f`: below this the triangle is taken as degenerate. */
  const DegenerateTolerance: real := 0.001

  /** `circular_arc_tolerance`. */
  const ArcTolerance: real := 0.1

  /** `Circular_properties`; the default-constructed value is the invalid one. */
  datatype Arc = Arc(isValid: bool, thetaStart: real, thetaRange: real, direction: real, radius: real, centre: Vector2)

  const InvalidArc: Arc := Arc(false, 0.0, 0.0, 0.0, 0.0, Vector2(0.0, 0.0))

  function Abs(v: real): real
  {
    if v < 0.0 then -v else v
  }

  /** The cross product of `b - a` and `c - a`, as the degeneracy test writes it. */
  function Cross(a: Vector2, b: Vector2, c: Vector2): real
  {
    (b.y - a.y) * (c.x - a.x) - (b.x - a.x) * (c.y - a.y)
  }

  predicate Degenerate(a: Vector2, b: Vector2, c: Vector2)
  {
    Abs(Cross(a, b, c)) <= DegenerateTolerance
  }

  /** `d`, the denominator of the circumcentre formula. */
  function Denominator(a: Vector2, b: Vector2, c: Vector2): real
  {
    2.0 * (a.x * Sub(b, c).y + b.x * Sub(c, a).y + c.x * Sub(a, b).y)
  }

  /** The denominator is `-2` times the cross product, so it is non-zero past the degeneracy test. */
  lemma DenominatorIsCross(a: Vector2, b: Vector2, c: Vector2)
    ensures Denominator(a, b, c) == -2.0 * Cross(a, b, c)
    ensures !Degenerate(a, b, c) ==> Denominator(a, b, c) != 0.0
  {
    var (x1, y1, x2, y2, x3, y3) := (a.x, a.y, b.x, b.y, c.x, c.y);
    assert Denominator(a, b, c) == 2.0 * (x1 * y2 - x1 * y3 + x2 * y3 - x2 * y1 + x3 * y1 - x3 * y2);
    assert Cross(a, b, c) == y2 * x3 - y2 * x1 - y1 * x3 + y1 * x1 - x2 * y3 + x2 * y1 + x1 * y3 - x1 * y1;
  }

  function Circumcentre(a: Vector2, b: Vector2, c: Vector2): Vector2
    requires Denominator(a, b, c) != 0.0
  {
    var d := Denominator(a, b, c);
    var aSq, bSq, cSq := LengthSquared(a), LengthSquared(b), LengthSquared(c);
    Vector2((aSq * Sub(b, c).y + bSq * Sub(c, a).y + cSq * Sub(a, b).y) / d,
            (aSq * Sub(c, b).x + bSq * Sub(a, c).x + cSq * Sub(b, a).x) / d)
  }

  /** `b` lies on the clockwise side of `a -> c`: the dot product with `ortho(c - a)` is negative. */
  predicate Clockwise(a: Vector2, b: Vector2, c: Vector2)
  {
    var ac := Sub(c, a);
    Dot(Vector2(ac.y, -ac.x), Sub(b, a)) < 0.0
  }

  /** The number of `2 pi` steps the winding loop still has to take. */
  function Turns(start: real, end: real): int
  {
    Ceil((start - end) / TwoPi)
  }

  /** `while(theta_end < theta_start) theta_end += 2 * M_PI`, as a value. */
  function Wind(start: real, end: real): real
    decreases Turns(start, end)
  {
    if end < start then Wind(start, end + TwoPi) else end
  }

  /** The wound end angle is not below the start, and within one turn of it when the loop ran. */
  lemma {:induction false} WindSpec(start: real, end: real)
    ensures Wind(start, end) >= start
    ensures end >= start ==> Wind(start, end) == end
    ensures end < start ==> Wind(start, end) < start + TwoPi
    decreases Turns(start, end)
  {
    if end < start {
      WindSpec(start, end + TwoPi);
    }
  }

  /** `circular_properties`: the arc through three control points, or the invalid value. */
  function CircularProperties(num: Numerics, cps: seq<Vector2>): Arc
  {
    if |cps| != 3 then InvalidArc
    else
      var a, b, c := cps[0], cps[1], cps[2];
      if Degenerate(a, b, c) then InvalidArc
      else
        DenominatorIsCross(a, b, c);
        var centre := Circumcentre(a, b, c);
        var dA, dC := Sub(a, centre), Sub(c, centre);
        var start := num.atan2(dA.y, dA.x);
        var range := Wind(start, num.atan2(dC.y, dC.x)) - start;
        if Clockwise(a, b, c) then Arc(true, start, TwoPiFloat - range, -1.0, Length(num, dA), centre)
        else Arc(true, start, range, 1.0, Length(num, dA), centre)
  }

  /**
   * The arc is valid exactly for three control points that are not nearly
   * collinear; it then runs clockwise (direction -1, range turned around) exactly
   * when the middle point is on the clockwise side, and counter-clockwise
   * (direction +1) over a non-negative range otherwise.
   */
  lemma ArcShape(num: Numerics, cps: seq<Vector2>)
    ensures var p := CircularProperties(num, cps);
      && (p.isValid <==> |cps| == 3 && !Degenerate(cps[0], cps[1], cps[2]))
      && (!p.isValid ==> p == InvalidArc)
      && (p.isValid ==> (p.direction == -1.0 <==> Clockwise(cps[0], cps[1], cps[2])))
      && (p.isValid ==> (p.direction == 1.0 <==> !Clockwise(cps[0], cps[1], cps[2])))
      && (p.isValid && p.direction == 1.0 ==> p.thetaRange >= 0.0)
      && (p.isValid && p.direction == -1.0 ==> TwoPiFloat - p.thetaRange >= 0.0)
  {
    if |cps| == 3 && !Degenerate(cps[0], cps[1], cps[2]) {
      var a, b, c := cps[0], cps[1], cps[2];
      DenominatorIsCross(a, b, c);
      var centre := Circumcentre(a, b, c);
      var dA, dC := Sub(a, centre), Sub(c, centre);
      WindSpec(num.atan2(dA.y, dA.x), num.atan2(dC.y, dC.x));
    }
  }

  /** `circular_properties`: the winding loop and the direction decision as statements. */
  method CircularPropertiesLoop(num: Numerics, cps: seq<Vector2>) returns (p: Arc)
    ensures p == CircularProperties(num, cps)
  {
    if |cps| != 3 {
      return InvalidArc;
    }
    var a, b, c := cps[0], cps[1], cps[2];
    if Abs(Cross(a, b, c)) <= DegenerateTolerance {
      return InvalidArc;
    }
    DenominatorIsCross(a, b, c);
    var centre := Circumcentre(a, b, c);
    var dA, dC := Sub(a, centre), Sub(c, centre);
    var r := Length(num, dA);
    var thetaStart := num.atan2(dA.y, dA.x);
    var thetaEnd := num.atan2(dC.y, dC.x);
    ghost var wound := Wind(thetaStart, thetaEnd);
    while thetaEnd < thetaStart
      invariant Wind(thetaStart, thetaEnd) == wound
      decreases Turns(thetaStart, thetaEnd)
    {
      thetaEnd := thetaEnd + TwoPi;
    }
    assert thetaEnd == wound;
    var dir := 1.0;
    var thetaRange := thetaEnd - thetaStart;
    var ortho := Sub(c, a);
    ortho := Vector2(ortho.y, -ortho.x);
    if Dot(ortho, Sub(b, a)) < 0.0 {
      dir := -dir;
      thetaRange := TwoPiFloat - thetaRange;
    }
    return Arc(true, thetaStart, thetaRange, dir, r, centre);
  }

  function Max(a: int, b: int): int
  {
    if a < b then b else a
  }

  /**
   * `point_count`: two points for a tiny circle, otherwise enough that each
   * step turns by at most `2 acos(1 - tolerance / r)`, and never fewer than two.
   */
  function PointCount(num: Numerics, radius: real, range: real): (n: int)
    requires ValidNumerics(num)
    ensures n >= 2
    ensures 2.0 * radius <= ArcTolerance ==> n == 2
  {
    if 2.0 * radius <= ArcTolerance then 2
    else
      assert 0.0 < ArcTolerance / radius < 2.0;
      Max(2, Ceil(range / (2.0 * num.acos(1.0 - ArcTolerance / radius))))
  }

  /** The point of the arc's circle at angle `theta`. */
  function ArcPoint(num: Numerics, p: Arc, theta: real): Vector2
  {
    Add(p.centre, Scale(p.radius, Vector2(num.cos(theta), num.sin(theta))))
  }

  /** The angle of sample `i` of `count`: the fraction `i / (count - 1)` of the way along the arc. */
  function SampleAngle(p: Arc, count: int, i: nat): real
    requires count >= 2
  {
    p.thetaStart + p.direction * (i as real / (count - 1) as real) * p.thetaRange
  }

  /** The first `i` samples. */
  function Samples(num: Numerics, p: Arc, count: int, i: nat): (out: seq<Vector2>)
    requires count >= 2
    ensures |out| == i
  {
    if i == 0 then [] else Samples(num, p, count, i - 1) + [ArcPoint(num, p, SampleAngle(p, count, i - 1))]
  }

  lemma {:induction false} SamplesAt(num: Numerics, p: Arc, count: int, i: nat, k: nat)
    requires count >= 2 && k < i
    ensures Samples(num, p, count, i)[k] == ArcPoint(num, p, SampleAngle(p, count, k))
  {
    if k < i - 1 {
      SamplesAt(num, p, count, i - 1, k);
    }
  }

  /** `approximate_perfect`, with the Bézier fallback's work loop cut off after `fuel` iterations. */
  function ApproximatePerfect(num: Numerics, cps: seq<Vector2>, fuel: nat): seq<Vector2>
    requires ValidNumerics(num)
  {
    var p := CircularProperties(num, cps);
    if !p.isValid then ApproximateBezier(cps, fuel)
    else
      var count := PointCount(num, p.radius, p.thetaRange);
      var points := Samples(num, p, count, count);
      if points == [] then ApproximateBezier(cps, fuel) else points
  }

  /** Without three usable control points the arc is flattened as a Bézier curve. */
  lemma PerfectFallsBack(num: Numerics, cps: seq<Vector2>, fuel: nat)
    requires ValidNumerics(num)
    requires |cps| != 3 || Degenerate(cps[0], cps[1], cps[2])
    ensures ApproximatePerfect(num, cps, fuel) == ApproximateBezier(cps, fuel)
  {
    ArcShape(num, cps);
  }

  /**
   * A valid arc yields its samples and never the second fallback: at least two
   * of them, exactly two for a tiny circle, the first at the start angle and the
   * last at the start angle plus the signed range.
   */
  lemma PerfectSamples(num: Numerics, cps: seq<Vector2>, fuel: nat)
    requires ValidNumerics(num)
    requires |cps| == 3 && !Degenerate(cps[0], cps[1], cps[2])
    ensures var p := CircularProperties(num, cps);
      var path := ApproximatePerfect(num, cps, fuel);
      && p.isValid
      && |path| == PointCount(num, p.radius, p.thetaRange) >= 2
      && (2.0 * p.radius <= ArcTolerance ==> |path| == 2)
      && path[0] == ArcPoint(num, p, p.thetaStart)
      && path[|path| - 1] == ArcPoint(num, p, p.thetaStart + p.direction * p.thetaRange)
  {
    ArcShape(num, cps);
    var p := CircularProperties(num, cps);
    var count := PointCount(num, p.radius, p.thetaRange);
    SampleEnds(num, p, count);
  }

  /** The first sample lies at the start angle and the last at the start angle plus the signed range. */
  lemma SampleEnds(num: Numerics, p: Arc, count: int)
    requires count >= 2
    ensures Samples(num, p, count, count)[0] == ArcPoint(num, p, p.thetaStart)
    ensures Samples(num, p, count, count)[count - 1] == ArcPoint(num, p, p.thetaStart + p.direction * p.thetaRange)
  {
    SamplesAt(num, p, count, count, 0);
    SamplesAt(num, p, count, count, count - 1);
    assert SampleAngle(p, count, 0) == p.thetaStart;
    var last := count - 1;
    assert last as real / (count - 1) as real == 1.0;
    assert SampleAngle(p, count, last) == p.thetaStart + p.direction * 1.0 * p.thetaRange;
  }

  /** `approximate_perfect`: the sampling loop, then the two fallbacks. */
  method ApproximatePerfectLoop(num: Numerics, cps: seq<Vector2>, fuel: nat) returns (points: seq<Vector2>)
    requires ValidNumerics(num)
    ensures points == ApproximatePerfect(num, cps, fuel)
  {
    var p := CircularPropertiesLoop(num, cps);
    if !p.isValid {
      points := ApproximateBezierLoop(cps, fuel);
      return;
    }
    var pointCount := PointCount(num, p.radius, p.thetaRange);
    points := SampleArc(num, p, pointCount);
    if points == [] {
      points := ApproximateBezierLoop(cps, fuel);
    }
  }

  /** The sampling loop of `approximate_perfect`. */
  method SampleArc(num: Numerics, p: Arc, pointCount: int) returns (points: seq<Vector2>)
    requires pointCount >= 2
    ensures points == Samples(num, p, pointCount, pointCount)
  {
    points := [];
    for i := 0 to pointCount
      invariant points == Samples(num, p, pointCount, i)
    {
      var fract := i as real / (pointCount - 1) as real;
      var theta := p.thetaStart + p.direction * fract * p.thetaRange;
      assert theta == SampleAngle(p, pointCount, i);
      points := points + [Add(p.centre, Scale(p.radius, Vector2(num.cos(theta), num.sin(theta))))];
    }
  }
}
