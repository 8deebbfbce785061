/**
 * Catmull-Rom flattening (src/hitobject/catmull.cpp, and the identical
 * functions at src/sliderpath.cpp:173-201): every span between two control
 * points is sampled 50 times, each sample emitting the points at `c / 50` and
 * `(c + 1) / 50`.
 */
module Catmull {
  import opened Wrappers
  import opened Vec

  /** `catmull_detail`. */
  const Detail: nat := 50

  /** One coordinate of the Catmull-Rom polynomial through `b` (at 0) and `c` (at 1). */
  function Axis(a: real, b: real, c: real, d: real, t: real): real
  {
    0.5 * (2.0 * b + (-a + c) * t + (2.0 * a - 5.0 * b + 4.0 * c - d) * t * t
      + (-a + 3.0 * b - 3.0 * c + d) * t * t * t)
  }

  /** `catmull_find_point`. */
  function FindPoint(v1: Vector2, v2: Vector2, v3: Vector2, v4: Vector2, t: real): Vector2
  {
    Vector2(Axis(v1.x, v2.x, v3.x, v4.x, t), Axis(v1.y, v2.y, v3.y, v4.y, t))
  }

  /** The curve starts a span at its second control point and ends it at its third. */
  lemma FindPointEnds(v1: Vector2, v2: Vector2, v3: Vector2, v4: Vector2)
    ensures FindPoint(v1, v2, v3, v4, 0.0) == v2
    ensures FindPoint(v1, v2, v3, v4, 1.0) == v3
  {
  }

  /** The four control points of span `i`: the neighbours, mirrored at the ends of the polygon. */
  datatype Controls = Controls(v1: Vector2, v2: Vector2, v3: Vector2, v4: Vector2)

  function SpanControls(cps: seq<Vector2>, i: nat): (k: Controls)
    requires i + 1 < |cps|
    ensures k.v2 == cps[i] && k.v3 == cps[i + 1]
    ensures k.v1 == if i > 0 then cps[i - 1] else cps[i]
    ensures k.v4 == if i + 2 < |cps| then cps[i + 2] else Sub(Add(k.v3, k.v3), k.v2)
  {
    var v1 := if i > 0 then cps[i - 1] else cps[i];
    var v2 := cps[i];
    var v3 := if i < |cps| - 1 then cps[i + 1] else Sub(Add(v2, v2), v1);
    var v4 := if i < |cps| - 2 then cps[i + 2] else Sub(Add(v3, v3), v2);
    Controls(v1, v2, v3, v4)
  }

  function At(k: Controls, t: real): Vector2
  {
    FindPoint(k.v1, k.v2, k.v3, k.v4, t)
  }

  /** The points emitted for the first `c` samples of a span. */
  function SpanPoints(k: Controls, c: nat): (out: seq<Vector2>)
    ensures |out| == 2 * c
  {
    if c == 0 then []
    else SpanPoints(k, c - 1) + [At(k, (c - 1) as real / Detail as real), At(k, c as real / Detail as real)]
  }

  /** The points emitted for the first `i` spans. */
  function Spans(cps: seq<Vector2>, i: nat): (out: seq<Vector2>)
    requires i < |cps|
    ensures |out| == 2 * Detail * i
  {
    if i == 0 then [] else Spans(cps, i - 1) + SpanPoints(SpanControls(cps, i - 1), Detail)
  }

  /**
   * `approximate_catmull`: no control points make the initial reservation of
   * `(size - 1) * 100` elements wrap around and throw; otherwise every span is sampled.
   */
  function ApproximateCatmull(cps: seq<Vector2>): (r: Outcome<seq<Vector2>>)
    ensures r.Throws? <==> cps == []
    ensures r.Done? ==> |r.value| == 2 * Detail * (|cps| - 1)
  {
    if cps == [] then Throws else Done(Spans(cps, |cps| - 1))
  }

  /** Sample `s` of a span sits at points `2s` (parameter `s / 50`) and `2s + 1` (parameter `(s + 1) / 50`). */
  lemma {:induction false} SpanPointsAt(k: Controls, c: nat, s: nat)
    requires s < c
    ensures SpanPoints(k, c)[2 * s] == At(k, s as real / Detail as real)
    ensures SpanPoints(k, c)[2 * s + 1] == At(k, (s + 1) as real / Detail as real)
  {
    if s < c - 1 {
      SpanPointsAt(k, c - 1, s);
    }
  }

  /** Span `j` occupies points `100 j .. 100 j + 99` of the output. */
  lemma {:induction false} SpansAt(cps: seq<Vector2>, i: nat, j: nat, m: nat)
    requires j < i < |cps| && m < 2 * Detail
    ensures Spans(cps, i)[2 * Detail * j + m] == SpanPoints(SpanControls(cps, j), Detail)[m]
  {
    if j < i - 1 {
      SpansAt(cps, i - 1, j, m);
    }
  }

  /**
   * Span `j` of the output starts at control point `j` and ends at control
   * point `j + 1`, and every sample's second point is repeated as the next
   * sample's first point.
   */
  lemma SpanEnds(cps: seq<Vector2>, j: nat, s: nat)
    requires j + 1 < |cps| && s + 1 < Detail
    ensures ApproximateCatmull(cps).value[2 * Detail * j] == cps[j]
    ensures ApproximateCatmull(cps).value[2 * Detail * j + 2 * Detail - 1] == cps[j + 1]
    ensures ApproximateCatmull(cps).value[2 * Detail * j + 2 * s + 1]
         == ApproximateCatmull(cps).value[2 * Detail * j + 2 * s + 2]
  {
    var k := SpanControls(cps, j);
    var n := |cps| - 1;
    SpansAt(cps, n, j, 0);
    SpansAt(cps, n, j, 2 * Detail - 1);
    SpansAt(cps, n, j, 2 * s + 1);
    SpansAt(cps, n, j, 2 * s + 2);
    SpanPointsAt(k, Detail, 0);
    SpanPointsAt(k, Detail, Detail - 1);
    SpanPointsAt(k, Detail, s);
    SpanPointsAt(k, Detail, s + 1);
    FindPointEnds(k.v1, k.v2, k.v3, k.v4);
  }

  /** `approximate_catmull`: the span loop with the inner sampling loop. */
  method ApproximateCatmullLoop(cps: seq<Vector2>) returns (r: Outcome<seq<Vector2>>)
    ensures r == ApproximateCatmull(cps)
  {
    if cps == [] {
      return Throws;
    }
    var points := [];
    for i := 0 to |cps| - 1
      invariant points == Spans(cps, i)
    {
      var v1 := if i > 0 then cps[i - 1] else cps[i];
      var v2 := cps[i];
      var v3 := if i < |cps| - 1 then cps[i + 1] else Sub(Add(v2, v2), v1);
      var v4 := if i < |cps| - 2 then cps[i + 2] else Sub(Add(v3, v3), v2);
      ghost var k := Controls(v1, v2, v3, v4);
      ghost var before := points;
      for c := 0 to Detail
        invariant points == before + SpanPoints(k, c)
      {
        points := points + [FindPoint(v1, v2, v3, v4, c as real / Detail as real)];
        points := points + [FindPoint(v1, v2, v3, v4, (c + 1) as real / Detail as real)];
      }
    }
    return Done(points);
  }
}
