/**
 * Bézier flattening (src/hitobject/bezier.cpp, and the identical functions at
 * src/sliderpath.cpp:16-88): a work stack of control polygons, each either
 * flat enough to emit or split in two by De Casteljau subdivision.
 */
module Bezier {
  import opened Vec

  /** `bezier_tolerance`. */
  const Tolerance: real := 0.25

  /** `points[i-1] - 2 * points[i] + points[i+1]`, the second difference at `i`. */
  function SecondDifference(p: seq<Vector2>, i: nat): Vector2
    requires 0 < i < |p| - 1
  {
    Add(Sub(p[i - 1], Scale(2.0, p[i])), p[i + 1])
  }

  /** Every interior second difference is within tolerance. */
  predicate FlatEnough(p: seq<Vector2>)
  {
    forall i :: 0 < i < |p| - 1 ==> LengthSquared(SecondDifference(p, i)) <= Tolerance
  }

  /** `bezier_is_flat_enough`: scans the interior points and stops at the first one out of tolerance. */
  method IsFlatEnough(points: seq<Vector2>) returns (flat: bool)
    ensures flat <==> FlatEnough(points)
  {
    var i := 1;
    while i < |points| - 1
      invariant 1 <= i
      invariant forall k :: 0 < k < i && k < |points| - 1 ==> LengthSquared(SecondDifference(points, k)) <= Tolerance
    {
      if LengthSquared(SecondDifference(points, i)) > Tolerance {
        return false;
      }
      i := i + 1;
    }
    return true;
  }

  /** A polygon with no interior point is always flat. */
  lemma ShortIsFlat(p: seq<Vector2>)
    requires |p| <= 2
    ensures FlatEnough(p)
  {
  }

  /** One pass of the midpoint loop: the first `k` entries become midpoints of neighbours. */
  function MidpointPass(m: seq<Vector2>, k: nat): (r: seq<Vector2>)
    requires k < |m| || (k == 0 && m == [])
    ensures |r| == |m|
  {
    if k == 0 then m else MidpointPass(m, k - 1)[k - 1 := Midpoint(m[k - 1], m[k])]
  }

  /** Entries from `k` on are untouched by the pass. */
  lemma {:induction false} MidpointPassKeeps(m: seq<Vector2>, k: nat, i: nat)
    requires k < |m| && k <= i < |m|
    ensures MidpointPass(m, k)[i] == m[i]
  {
    if k > 0 {
      MidpointPassKeeps(m, k - 1, i);
    }
  }

  /** `count` copies of the value-initialised point, as `std::vector<Vector2> l(count)` makes. */
  function Zeros(count: nat): (z: seq<Vector2>)
    ensures |z| == count
  {
    seq(count, _ => Vector2(0.0, 0.0))
  }

  /**
   * The outer loop of `bezier_subdivide` from pass `i` on, with `level` the
   * current `midpoints` buffer: each pass records the buffer's first entry in
   * `l[i]` and its last live entry in `r[n - i - 1]`, then takes midpoints.
   */
  function SubdivideFrom(level: seq<Vector2>, i: nat, l: seq<Vector2>, r: seq<Vector2>): (res: (seq<Vector2>, seq<Vector2>))
    requires i <= |level| == |l| == |r|
    ensures |res.0| == |res.1| == |level|
    decreases |level| - i
  {
    if i == |level| then (l, r)
    else
      var n := |level|;
      SubdivideFrom(MidpointPass(level, n - i - 1), i + 1, l[i := level[0]], r[n - i - 1 := level[n - i - 1]])
  }

  /** `bezier_subdivide(points)` as a value. */
  function Halves(p: seq<Vector2>): (seq<Vector2>, seq<Vector2>)
  {
    SubdivideFrom(p, 0, Zeros(|p|), Zeros(|p|))
  }

  /** Entries already recorded are never overwritten by later passes. */
  lemma {:induction false} SubdivideFromKeeps(level: seq<Vector2>, i: nat, l: seq<Vector2>, r: seq<Vector2>, k: nat)
    requires i <= |level| == |l| == |r|
    ensures k < i ==> SubdivideFrom(level, i, l, r).0[k] == l[k]
    ensures |level| - i <= k < |level| ==> SubdivideFrom(level, i, l, r).1[k] == r[k]
    decreases |level| - i
  {
    if i < |level| {
      var n := |level|;
      var l', r' := l[i := level[0]], r[n - i - 1 := level[n - i - 1]];
      assert SubdivideFrom(level, i, l, r) == SubdivideFrom(MidpointPass(level, n - i - 1), i + 1, l', r');
      SubdivideFromKeeps(MidpointPass(level, n - i - 1), i + 1, l', r', k);
    }
  }

  /** The last pass records the same point at the end of the left half and the start of the right. */
  lemma {:induction false} SubdivideFromMeets(level: seq<Vector2>, i: nat, l: seq<Vector2>, r: seq<Vector2>)
    requires i < |level| == |l| == |r|
    ensures SubdivideFrom(level, i, l, r).0[|level| - 1] == SubdivideFrom(level, i, l, r).1[0]
    decreases |level| - i
  {
    var n := |level|;
    var next := MidpointPass(level, n - i - 1);
    var l', r' := l[i := level[0]], r[n - i - 1 := level[n - i - 1]];
    assert SubdivideFrom(level, i, l, r) == SubdivideFrom(next, i + 1, l', r');
    if i + 1 < n {
      SubdivideFromMeets(next, i + 1, l', r');
    } else {
      SubdivideFromKeeps(next, i + 1, l', r', n - 1);
      SubdivideFromKeeps(next, i + 1, l', r', 0);
    }
  }

  /**
   * Both halves have the parent's size, the left starts at the parent's first
   * point, the right ends at its last point, and they meet in the middle.
   */
  lemma HalvesShape(p: seq<Vector2>)
    requires p != []
    ensures var (l, r) := Halves(p);
      && |l| == |p| && |r| == |p|
      && l[0] == p[0] && r[|p| - 1] == p[|p| - 1]
      && l[|p| - 1] == r[0]
  {
    var n := |p|;
    var z := Zeros(n);
    var l', r' := z[0 := p[0]], z[n - 1 := p[n - 1]];
    assert Halves(p) == SubdivideFrom(MidpointPass(p, n - 1), 1, l', r');
    SubdivideFromKeeps(MidpointPass(p, n - 1), 1, l', r', 0);
    SubdivideFromKeeps(MidpointPass(p, n - 1), 1, l', r', n - 1);
    SubdivideFromMeets(p, 0, z, z);
  }

  /** `bezier_subdivide`: the in-place midpoint loops over a copy of the points. */
  method Subdivide(points: seq<Vector2>) returns (l: seq<Vector2>, r: seq<Vector2>)
    ensures (l, r) == Halves(points)
  {
    var count := |points|;
    var mids := new Vector2[count](j requires 0 <= j < count => points[j]);
    l := Zeros(count);
    r := Zeros(count);
    assert mids[..] == points;
    for i := 0 to count
      invariant |l| == |r| == count == mids.Length
      invariant SubdivideFrom(mids[..], i, l, r) == Halves(points)
    {
      l := l[i := mids[0]];
      r := r[count - i - 1 := mids[count - i - 1]];
      MidpointPassInPlace(mids, count - i - 1);
    }
  }

  /** The inner loop of `bezier_subdivide`: `midpoints[j] = midpoint(midpoints[j], midpoints[j + 1])` for `j < k`. */
  method MidpointPassInPlace(mids: array<Vector2>, k: nat)
    requires k < mids.Length
    modifies mids
    ensures mids[..] == MidpointPass(old(mids[..]), k)
  {
    ghost var prev := mids[..];
    for j := 0 to k
      invariant mids[..] == MidpointPass(prev, j)
    {
      MidpointPassKeeps(prev, j, j);
      MidpointPassKeeps(prev, j, j + 1);
      mids[j] := Midpoint(mids[j], mids[j + 1]);
    }
  }

  /** `0.25 * (l[2i-1] + 2 * l[2i] + l[2i+1])`: the `i`-th interior output of a flat polygon. */
  function Smoothed(joined: seq<Vector2>, i: nat): Vector2
    requires 0 < i && 2 * i + 1 < |joined|
  {
    Scale(0.25, Add(Add(joined[2 * i - 1], Scale(2.0, joined[2 * i])), joined[2 * i + 1]))
  }

  /** The interior outputs for `i` in `1 .. k - 1`. */
  function Interior(joined: seq<Vector2>, k: nat): (out: seq<Vector2>)
    requires k <= 1 || 2 * k <= |joined|
    ensures |out| == if k <= 1 then 0 else k - 1
  {
    if k <= 1 then [] else Interior(joined, k - 1) + [Smoothed(joined, k - 1)]
  }

  /** The two halves of a subdivision laid end to end, sharing their meeting point. */
  function Joined(p: seq<Vector2>): (j: seq<Vector2>)
    requires p != []
    ensures |j| == 2 * |p| - 1
  {
    var (l, r) := Halves(p);
    l + r[1..]
  }

  /** `bezier_approximate(points)` as a value: the first point, then the smoothed interior. */
  function Emitted(p: seq<Vector2>): (out: seq<Vector2>)
    requires p != []
  {
    [p[0]] + Interior(Joined(p), |p| - 1)
  }

  /** A flat polygon of `n` points contributes `max(1, n - 1)` points, the first being its first point. */
  lemma EmittedShape(p: seq<Vector2>)
    requires p != []
    ensures |Emitted(p)| == if |p| <= 2 then 1 else |p| - 1
    ensures Emitted(p)[0] == p[0]
  {
  }

  /** `bezier_approximate`: emits `points[0]`, then one smoothed point per interior point. */
  method Approximate(points: seq<Vector2>) returns (out: seq<Vector2>)
    requires points != []
    ensures out == Emitted(points)
  {
    var count := |points|;
    var l, r := Subdivide(points);
    l := l + r[1..];
    out := [points[0]];
    for i := 1 to if count - 1 < 1 then 1 else count - 1
      invariant |l| == 2 * count - 1
      invariant out == [points[0]] + Interior(l, i)
    {
      out := out + [Scale(0.25, Add(Add(l[2 * i - 1], Scale(2.0, l[2 * i])), l[2 * i + 1]))];
    }
  }

  /** Every polygon on the work stack has `n` points. */
  predicate AllSized(stack: seq<seq<Vector2>>, n: nat)
  {
    forall k :: 0 <= k < |stack| ==> |stack[k]| == n
  }

  /**
   * One iteration of the work loop of `approximate_bezier` on a non-empty
   * stack (top last): a flat polygon on top is emitted; a curved one is
   * replaced by its left half and then its right half, so the right half is
   * on top.
   */
  function Step(stack: seq<seq<Vector2>>, out: seq<Vector2>, n: nat): (next: (seq<seq<Vector2>>, seq<Vector2>))
    requires n > 0 && stack != [] && AllSized(stack, n)
    ensures AllSized(next.0, n)
  {
    var parent := stack[|stack| - 1];
    var rest := stack[..|stack| - 1];
    if FlatEnough(parent) then (rest, out + Emitted(parent))
    else
      var halves := Halves(parent);
      (rest + [halves.0, halves.1], out)
  }

  /** The work loop from a given stack and output, for at most `fuel` iterations. */
  function Flatten(stack: seq<seq<Vector2>>, out: seq<Vector2>, n: nat, fuel: nat): seq<Vector2>
    requires n > 0 && AllSized(stack, n)
    decreases fuel
  {
    if fuel == 0 || stack == [] then out
    else
      var (s, o) := Step(stack, out, n);
      Flatten(s, o, n, fuel - 1)
  }

  /**
   * `approximate_bezier` with the work loop cut off after `fuel` iterations:
   * empty for no control points; otherwise the flattened pieces followed by
   * the last control point.
   */
  function ApproximateBezier(cps: seq<Vector2>, fuel: nat): (path: seq<Vector2>)
    ensures cps == [] ==> path == []
    ensures cps != [] ==> path != [] && path[|path| - 1] == cps[|cps| - 1]
  {
    if cps == [] then [] else Flatten([cps], [], |cps|, fuel) + [cps[|cps| - 1]]
  }

  /** A two-point control polygon is a straight line: it flattens to exactly its two points. */
  lemma TwoPointBezier(p0: Vector2, p1: Vector2, fuel: nat)
    requires fuel >= 1
    ensures ApproximateBezier([p0, p1], fuel) == [p0, p1]
  {
    assert FlatEnough([p0, p1]);
    assert Emitted([p0, p1]) == [p0];
    var s := [[p0, p1]];
    assert s[..0] == [];
    assert s[|s| - 1] == [p0, p1];
    assert Step(s, [], 2).0 == [];
    assert Step(s, [], 2).1 == [p0];
    assert Flatten([[p0, p1]], [], 2, fuel) == Flatten([], [p0], 2, fuel - 1) == [p0];
  }

  /** A control polygon that is already flat is emitted as is, then closed with its last point. */
  lemma FlatBezier(cps: seq<Vector2>, fuel: nat)
    requires cps != [] && fuel >= 1 && FlatEnough(cps)
    ensures ApproximateBezier(cps, fuel) == Emitted(cps) + [cps[|cps| - 1]]
  {
    var s := [cps];
    assert s[..0] == [] && s[|s| - 1] == cps && [] + Emitted(cps) == Emitted(cps);
    assert Step(s, [], |cps|) == ([], Emitted(cps));
    assert Flatten(s, [], |cps|, fuel) == Flatten([], Emitted(cps), |cps|, fuel - 1);
  }

  /**
   * Order of emission: when a curved polygon splits into two flat halves, the
   * right half's points come out before the left half's.
   */
  lemma RightHalfFirst(p: seq<Vector2>, fuel: nat)
    requires p != [] && fuel >= 3 && !FlatEnough(p)
    requires FlatEnough(Halves(p).0) && FlatEnough(Halves(p).1)
    ensures Flatten([p], [], |p|, fuel) == Emitted(Halves(p).1) + Emitted(Halves(p).0)
  {
    var l, r := Halves(p).0, Halves(p).1;
    var n := |p|;
    var s0, s1, s2 := [p], [l, r], [l];
    assert s0[..0] == [] && s0[|s0| - 1] == p && [] + [l, r] == s1;
    assert Step(s0, [], n) == (s1, []);
    assert s1[..1] == s2 && s1[|s1| - 1] == r && [] + Emitted(r) == Emitted(r);
    assert Step(s1, [], n) == (s2, Emitted(r));
    assert s2[..0] == [] && s2[|s2| - 1] == l;
    assert Step(s2, Emitted(r), n) == ([], Emitted(r) + Emitted(l));
    calc {
      Flatten([p], [], n, fuel);
      Flatten([l, r], [], n, fuel - 1);
      Flatten([l], Emitted(r), n, fuel - 2);
      Flatten([], Emitted(r) + Emitted(l), n, fuel - 3);
    }
  }

  /** `approximate_bezier`: the work-stack loop, cut off after `fuel` iterations. */
  method ApproximateBezierLoop(cps: seq<Vector2>, fuel: nat) returns (points: seq<Vector2>)
    ensures points == ApproximateBezier(cps, fuel)
  {
    points := [];
    if cps == [] {
      return;
    }
    var n := |cps|;
    ghost var goal := Flatten([cps], [], n, fuel);
    var stack := [cps];
    var steps := 0;
    while stack != [] && steps < fuel
      invariant steps <= fuel && AllSized(stack, n)
      invariant Flatten(stack, points, n, fuel - steps) == goal
      decreases fuel - steps
    {
      stack, points := WorkStep(stack, points, n);
      steps := steps + 1;
    }
    points := points + [cps[n - 1]];
  }

  /** One iteration of the work loop: pop a polygon, then emit it or push its halves. */
  method WorkStep(stack: seq<seq<Vector2>>, points: seq<Vector2>, n: nat)
    returns (stack': seq<seq<Vector2>>, points': seq<Vector2>)
    requires n > 0 && stack != [] && AllSized(stack, n)
    ensures (stack', points') == Step(stack, points, n)
  {
    var parent := stack[|stack| - 1];
    stack' := stack[..|stack| - 1];
    points' := points;
    var flat := IsFlatEnough(parent);
    if flat {
      var out := Approximate(parent);
      points' := points' + out;
    } else {
      var l, r := Subdivide(parent);
      stack' := stack' + [l, r];
    }
  }
}
