/**
 * The rendered path of a slider (src/hitobject/sliderpath.cpp and the older
 * src/sliderpath.cpp): every segment is flattened by the approximator of its
 * kind, the pieces are laid end to end, and the newer revision then drops
 * repeated points. Cumulative lengths along the path are computed, and the path
 * is cut or extended so that it ends at the authored length.
 */
module SliderPath {
  import opened Wrappers
  import opened Vec
  import opened Numerics
  import opened BeatmapTypes
  import opened Bezier
  import opened Catmull
  import opened PerfectCircle

  /** `approximate_linear`: the control points themselves. */
  function ApproximateLinear(cps: seq<Vector2>): seq<Vector2>
  {
    cps
  }

  /**
   * The points one segment contributes: the approximator of its kind, or its
   * raw points for a kind the switch does not name. Only a Catmull segment can
   * throw (on no points).
   */
  function SegmentPoints(num: Numerics, seg: Segment, fuel: nat): (r: Outcome<seq<Vector2>>)
    requires ValidNumerics(num)
    ensures r.Throws? <==> seg.kind == CatmullKind && seg.points == []
    ensures seg.kind == LinearKind ==> r == Done(seg.points)
    ensures seg.kind !in {LinearKind, PerfectKind, BezierKind, CatmullKind} ==> r == Done(seg.points)
  {
    if seg.kind == LinearKind then Done(ApproximateLinear(seg.points))
    else if seg.kind == PerfectKind then Done(ApproximatePerfect(num, seg.points, fuel))
    else if seg.kind == BezierKind then Done(ApproximateBezier(seg.points, fuel))
    else if seg.kind == CatmullKind then ApproximateCatmull(seg.points)
    else Done(seg.points)
  }

  /** The per-segment pieces of the first `k` segments, in segment order, or the first throw. */
  function Concatenated(num: Numerics, segs: seq<Segment>, k: nat, fuel: nat): Outcome<seq<Vector2>>
    requires ValidNumerics(num) && k <= |segs|
  {
    if k == 0 then Done([])
    else match Concatenated(num, segs, k - 1, fuel)
      case Throws => Throws
      case Done(prev) =>
        match SegmentPoints(num, segs[k - 1], fuel)
        case Throws => Throws
        case Done(pts) => Done(prev + pts)
  }

  /** A segment that makes the path throw: a Catmull segment without points. */
  predicate Throwing(seg: Segment)
  {
    seg.kind == CatmullKind && seg.points == []
  }

  /** Concatenation throws exactly when one of the segments is a Catmull segment without points. */
  lemma {:induction false} ConcatenatedThrows(num: Numerics, segs: seq<Segment>, k: nat, fuel: nat)
    requires ValidNumerics(num) && k <= |segs|
    ensures Concatenated(num, segs, k, fuel).Throws? <==> exists j :: 0 <= j < k && Throwing(segs[j])
  {
    if k > 0 {
      ConcatenatedThrows(num, segs, k - 1, fuel);
    }
  }

  /** Without a throw, the piece of segment `k` follows the pieces of the segments before it. */
  lemma ConcatenatedAppends(num: Numerics, segs: seq<Segment>, k: nat, fuel: nat)
    requires ValidNumerics(num) && k < |segs|
    requires Concatenated(num, segs, k + 1, fuel).Done?
    ensures Concatenated(num, segs, k, fuel).Done? && SegmentPoints(num, segs[k], fuel).Done?
    ensures Concatenated(num, segs, k + 1, fuel).value
         == Concatenated(num, segs, k, fuel).value + SegmentPoints(num, segs[k], fuel).value
  {
  }

  /** Adjacent points differ everywhere. */
  predicate NoAdjacentDuplicates(s: seq<Vector2>)
  {
    forall i :: 0 < i < |s| ==> s[i] != s[i - 1]
  }

  /** `std::unique`: each run of equal adjacent points is reduced to its first point. */
  function Unique(p: seq<Vector2>): (u: seq<Vector2>)
    ensures |u| <= |p|
    ensures p != [] ==> u != [] && u[0] == p[0] && u[|u| - 1] == p[|p| - 1]
  {
    if |p| <= 1 then p
    else
      var u := Unique(p[..|p| - 1]);
      if p[|p| - 1] == p[|p| - 2] then u else u + [p[|p| - 1]]
  }

  /** After `unique` no two adjacent points are equal. */
  lemma {:induction false} UniqueNoAdjacent(p: seq<Vector2>)
    ensures NoAdjacentDuplicates(Unique(p))
  {
    if |p| > 1 {
      UniqueNoAdjacent(p[..|p| - 1]);
    }
  }

  /** A path without adjacent repeats is left as it is. */
  lemma {:induction false} UniqueFixpoint(p: seq<Vector2>)
    requires NoAdjacentDuplicates(p)
    ensures Unique(p) == p
  {
    if |p| > 1 {
      UniqueFixpoint(p[..|p| - 1]);
      assert p[..|p| - 1] + [p[|p| - 1]] == p;
    }
  }

  /** Applying `unique` twice is the same as applying it once. */
  lemma UniqueIdempotent(p: seq<Vector2>)
    ensures Unique(Unique(p)) == Unique(p)
  {
    UniqueNoAdjacent(p);
    UniqueFixpoint(Unique(p));
  }

  /** `unique` only drops repeats: the same points occur before and after. */
  lemma {:induction false} UniqueSameMembers(p: seq<Vector2>, x: Vector2)
    ensures x in Unique(p) <==> x in p
  {
    if |p| > 1 {
      UniqueSameMembers(p[..|p| - 1], x);
      assert p == p[..|p| - 1] + [p[|p| - 1]];
    }
  }

  /** One more point: `unique` of a prefix grows by that point exactly when it differs from its predecessor. */
  lemma UniqueStep(s: seq<Vector2>, k: nat)
    requires 1 <= k < |s|
    ensures Unique(s[..k + 1]) == if s[k] == s[k - 1] then Unique(s[..k]) else Unique(s[..k]) + [s[k]]
  {
    assert s[..k + 1][..k] == s[..k];
  }

  /**
   * `std::unique` on the path's storage: repeats are overwritten by later
   * points, and the number of points kept is returned.
   */
  method UniqueInPlace(a: array<Vector2>) returns (n: nat)
    modifies a
    ensures n <= a.Length && a[..n] == Unique(old(a[..]))
  {
    ghost var s := a[..];
    if a.Length == 0 {
      return 0;
    }
    var result: nat := 0;
    var first := 1;
    assert s[..1] == [s[0]];
    while first < a.Length
      invariant 1 <= first <= a.Length && result < first
      invariant a[first..] == s[first..]
      invariant a[..result + 1] == Unique(s[..first])
    {
      result := KeepIfNew(a, s, result, first);
      first := first + 1;
    }
    assert s[..a.Length] == s;
    return result + 1;
  }

  /** One step of `std::unique`: point `first` is kept, right after the last kept point, when it differs from it. */
  method KeepIfNew(a: array<Vector2>, ghost s: seq<Vector2>, result: nat, first: nat) returns (next: nat)
    requires 1 <= first < a.Length == |s| && result < first
    requires a[first..] == s[first..] && a[..result + 1] == Unique(s[..first])
    modifies a
    ensures next <= first
    ensures a[first + 1..] == s[first + 1..] && a[..next + 1] == Unique(s[..first + 1])
  {
    UniqueStep(s, first);
    assert a[first] == s[first];
    next := result;
    if !Eq(a[next], a[first]) {
      next := next + 1;
      a[next] := a[first];
      assert a[..next + 1] == a[..next] + [a[next]];
    }
    assert a[first + 1..] == a[first..][1..];
  }

  /** `osu::sliderpath` (newer revision): the concatenated pieces with repeated points dropped. */
  function Sliderpath(num: Numerics, segs: seq<Segment>, fuel: nat): Outcome<seq<Vector2>>
    requires ValidNumerics(num)
  {
    match Concatenated(num, segs, |segs|, fuel)
    case Throws => Throws
    case Done(path) => Done(Unique(path))
  }

  /** `sliderpath` (older revision): the concatenated pieces as they are. */
  function LegacySliderpath(num: Numerics, segs: seq<Segment>, fuel: nat): Outcome<seq<Vector2>>
    requires ValidNumerics(num)
  {
    Concatenated(num, segs, |segs|, fuel)
  }

  /**
   * The two revisions agree on when they throw; otherwise the newer one is the
   * older one without adjacent repeats, keeping the same points.
   */
  lemma RevisionsAgree(num: Numerics, segs: seq<Segment>, fuel: nat)
    requires ValidNumerics(num)
    ensures Sliderpath(num, segs, fuel).Throws? <==> LegacySliderpath(num, segs, fuel).Throws?
    ensures Sliderpath(num, segs, fuel).Throws? <==> exists j :: 0 <= j < |segs| && Throwing(segs[j])
    ensures Sliderpath(num, segs, fuel).Done? ==>
      && NoAdjacentDuplicates(Sliderpath(num, segs, fuel).value)
      && Sliderpath(num, segs, fuel).value == Unique(LegacySliderpath(num, segs, fuel).value)
  {
    ConcatenatedThrows(num, segs, |segs|, fuel);
    if LegacySliderpath(num, segs, fuel).Done? {
      UniqueNoAdjacent(LegacySliderpath(num, segs, fuel).value);
    }
  }

  /** The points of one segment, by the approximator of its kind. */
  method SegmentPointsOf(num: Numerics, seg: Segment, fuel: nat) returns (r: Outcome<seq<Vector2>>)
    requires ValidNumerics(num)
    ensures r == SegmentPoints(num, seg, fuel)
  {
    if seg.kind == LinearKind {
      r := Done(ApproximateLinear(seg.points));
    } else if seg.kind == PerfectKind {
      var pts := ApproximatePerfectLoop(num, seg.points, fuel);
      r := Done(pts);
    } else if seg.kind == BezierKind {
      var pts := ApproximateBezierLoop(seg.points, fuel);
      r := Done(pts);
    } else if seg.kind == CatmullKind {
      r := ApproximateCatmullLoop(seg.points);
    } else {
      r := Done(seg.points);
    }
  }

  /** The segment loop shared by both revisions: each piece is inserted at the end of the path. */
  method ConcatenateSegments(num: Numerics, segs: seq<Segment>, fuel: nat) returns (r: Outcome<seq<Vector2>>)
    requires ValidNumerics(num)
    ensures r == Concatenated(num, segs, |segs|, fuel)
  {
    var path := [];
    for k := 0 to |segs|
      invariant Concatenated(num, segs, k, fuel) == Done(path)
    {
      var points := SegmentPointsOf(num, segs[k], fuel);
      if points.Throws? {
        ConcatenatedThrows(num, segs, k + 1, fuel);
        ConcatenatedThrows(num, segs, |segs|, fuel);
        return Throws;
      }
      path := path + points.value;
    }
    return Done(path);
  }

  /** `osu::sliderpath` (newer revision), erasing the tail that `std::unique` leaves behind. */
  method SliderpathOf(num: Numerics, segs: seq<Segment>, fuel: nat) returns (r: Outcome<seq<Vector2>>)
    requires ValidNumerics(num)
    ensures r == Sliderpath(num, segs, fuel)
  {
    var joined := ConcatenateSegments(num, segs, fuel);
    if joined.Throws? {
      return Throws;
    }
    var path := joined.value;
    var storage := new Vector2[|path|](i requires 0 <= i < |path| => path[i]);
    assert storage[..] == path;
    var kept := UniqueInPlace(storage);
    return Done(storage[..kept]);
  }

  /** `sliderpath` (older revision). */
  method LegacySliderpathOf(num: Numerics, segs: seq<Segment>, fuel: nat) returns (r: Outcome<seq<Vector2>>)
    requires ValidNumerics(num)
    ensures r == LegacySliderpath(num, segs, fuel)
  {
    r := ConcatenateSegments(num, segs, fuel);
  }

  // Path lengths

  /** The cumulative distances along the first `i` points (a lone `0` for fewer than two). */
  function Distances(num: Numerics, p: seq<Vector2>, i: nat): (d: seq<real>)
    requires i <= 1 || i <= |p|
    ensures |d| == if i <= 1 then 1 else i
  {
    if i <= 1 then [0.0]
    else
      var prev := Distances(num, p, i - 1);
      prev + [prev[|prev| - 1] + Length(num, Sub(p[i - 1], p[i - 2]))]
  }

  /** `osu::pathlengths` as a value. */
  function PathLengths(num: Numerics, p: seq<Vector2>): seq<real>
  {
    Distances(num, p, |p|)
  }

  /** Distances never decrease. */
  predicate NonDecreasing(d: seq<real>)
  {
    forall i, j :: 0 <= i <= j < |d| ==> d[i] <= d[j]
  }

  /**
   * The distances start at 0, have one entry per point (and at least one), each
   * adds the length of the step onto the previous one, and they never decrease.
   */
  lemma {:induction false} DistancesSpec(num: Numerics, p: seq<Vector2>, i: nat)
    requires ValidNumerics(num) && i <= |p|
    ensures Distances(num, p, i)[0] == 0.0
    ensures forall k :: 1 <= k < i ==>
      Distances(num, p, i)[k] == Distances(num, p, i)[k - 1] + Length(num, Sub(p[k], p[k - 1]))
    ensures NonDecreasing(Distances(num, p, i))
  {
    if i > 1 {
      var prev := Distances(num, p, i - 1);
      var step := Length(num, Sub(p[i - 1], p[i - 2]));
      var d := Distances(num, p, i);
      DistancesUnfold(num, p, i);
      hide *;
      DistancesSpec(num, p, i - 1);
      LengthNonNegative(num, Sub(p[i - 1], p[i - 2]));
      NonDecreasingSnoc(prev, prev[|prev| - 1] + step);
      forall k | 1 <= k < i
        ensures d[k] == d[k - 1] + Length(num, Sub(p[k], p[k - 1]))
      {
        if k < i - 1 {
          assert d[k] == prev[k] && d[k - 1] == prev[k - 1];
        }
      }
    } else {
      assert Distances(num, p, i) == [0.0];
    }
  }

  /** One more point appends one more running total. */
  lemma DistancesUnfold(num: Numerics, p: seq<Vector2>, i: nat)
    requires 1 < i <= |p|
    ensures var prev := Distances(num, p, i - 1);
      |prev| == i - 1 && Distances(num, p, i) == prev + [prev[|prev| - 1] + Length(num, Sub(p[i - 1], p[i - 2]))]
  {
  }

  /** Appending a value not below the last keeps a non-empty sequence non-decreasing. */
  lemma NonDecreasingSnoc(d: seq<real>, x: real)
    requires d != [] && NonDecreasing(d) && d[|d| - 1] <= x
    ensures NonDecreasing(d + [x])
  {
    var e := d + [x];
    forall a, b | 0 <= a <= b < |e|
      ensures e[a] <= e[b]
    {
      if b == |d| && a < b {
        assert e[a] == d[a] <= d[|d| - 1];
      }
    }
  }

  lemma PathLengthsShape(num: Numerics, p: seq<Vector2>)
    requires ValidNumerics(num)
    ensures |PathLengths(num, p)| == if |p| == 0 then 1 else |p|
    ensures PathLengths(num, p)[0] == 0.0
    ensures forall k :: 1 <= k < |p| ==>
      PathLengths(num, p)[k] == PathLengths(num, p)[k - 1] + Length(num, Sub(p[k], p[k - 1]))
    ensures NonDecreasing(PathLengths(num, p))
  {
    DistancesSpec(num, p, |p|);
  }

  /** `osu::pathlengths`: a running total pushed after every step. */
  method PathLengthsOf(num: Numerics, points: seq<Vector2>) returns (distances: seq<real>)
    ensures distances == PathLengths(num, points)
  {
    distances := [0.0];
    var distance := 0.0;
    var i := 1;
    while i < |points|
      invariant 1 <= i <= if |points| == 0 then 1 else |points|
      invariant distances == Distances(num, points, i)
      invariant distance == distances[|distances| - 1]
    {
      distance := distance + Length(num, Sub(points[i], points[i - 1]));
      distances := distances + [distance];
      i := i + 1;
    }
  }

  // Fitting the path to the authored length

  function Last<T>(s: seq<T>): T
    requires s != []
  {
    s[|s| - 1]
  }

  /** The shrinking loop: drop the last point while the one before it already reaches `len`. */
  function Shrunk(p: seq<Vector2>, d: seq<real>, len: real): (r: (seq<Vector2>, seq<real>))
    requires |p| == |d| >= 1
    ensures |r.0| == |r.1| >= 1 && |r.0| <= |p|
    decreases |p|
  {
    if |p| >= 2 && d[|d| - 2] >= len then Shrunk(p[..|p| - 1], d[..|d| - 1], len) else (p, d)
  }

  /**
   * Shrinking keeps a prefix of the points with their distances, stops with the
   * next-to-last distance below `len`, and leaves a last distance of at least
   * `len` whenever it dropped anything.
   */
  lemma {:induction false} ShrunkSpec(p: seq<Vector2>, d: seq<real>, len: real)
    requires |p| == |d| >= 1
    ensures var (p', d') := Shrunk(p, d, len);
      && p' == p[..|p'|] && d' == d[..|p'|]
      && (|p'| >= 2 ==> d'[|d'| - 2] < len)
      && (|p'| < |p| ==> Last(d') >= len)
    decreases |p|
  {
    if |p| >= 2 && d[|d| - 2] >= len {
      ShrunkSpec(p[..|p| - 1], d[..|d| - 1], len);
      var (p', d') := Shrunk(p, d, len);
      assert p[..|p| - 1][..|p'|] == p[..|p'|];
      assert d[..|d| - 1][..|p'|] == d[..|p'|];
    }
  }

  /**
   * With non-decreasing distances, shrinking stops exactly at the first point
   * whose distance reaches `len`.
   */
  lemma {:induction false} ShrunkStopsAt(p: seq<Vector2>, d: seq<real>, len: real, j: nat)
    requires |p| == |d| && 1 <= j < |d| && NonDecreasing(d)
    requires d[j] >= len && d[j - 1] < len
    ensures Shrunk(p, d, len) == (p[..j + 1], d[..j + 1])
    decreases |p|
  {
    if |p| == j + 1 {
      assert p[..j + 1] == p && d[..j + 1] == d;
    } else {
      assert d[|d| - 2] >= d[j];
      ShrunkStopsAt(p[..|p| - 1], d[..|d| - 1], len, j);
      assert p[..|p| - 1][..j + 1] == p[..j + 1];
      assert d[..|d| - 1][..j + 1] == d[..j + 1];
    }
  }

  /** The point `len - last distance` further along `direction` from the last point, ending at distance `len`. */
  function Extend(p: seq<Vector2>, d: seq<real>, len: real, direction: Vector2): (r: (seq<Vector2>, seq<real>))
    requires p != [] && d != []
  {
    (p + [Add(Last(p), Scale(len - Last(d), direction))], d + [len])
  }

  /** The direction of the last step of the path (through the abstract `normal`). */
  function LastDirection(num: Numerics, p: seq<Vector2>): Vector2
    requires |p| >= 2
  {
    num.normal(Sub(Last(p), p[|p| - 2]))
  }

  /**
   * The first half of `fix_slider_length`: a path that overshoots `len` is
   * shrunk, then its last point is moved back onto `len` if it still overshoots.
   */
  function Trimmed(num: Numerics, p: seq<Vector2>, d: seq<real>, len: real): (r: (seq<Vector2>, seq<real>))
    requires |p| == |d| >= 1
    ensures |r.0| == |r.1| >= 1
  {
    if Last(d) > len then
      var (p2, d2) := Shrunk(p, d, len);
      if |p2| >= 2 && Last(d2) > len
      then Extend(p2[..|p2| - 1], d2[..|d2| - 1], len, LastDirection(num, p2))
      else (p2, d2)
    else (p, d)
  }

  /** The second half: a path of at least two points that falls short of `len` is extended to it. */
  function Lengthened(num: Numerics, p: seq<Vector2>, d: seq<real>, len: real): (r: (seq<Vector2>, seq<real>))
    requires |p| == |d| >= 1
    ensures |r.0| == |r.1| >= 1
  {
    if Last(d) < len && |p| >= 2 then Extend(p, d, len, LastDirection(num, p)) else (p, d)
  }

  /** `fix_slider_length` on the points, distances and length of a slider. */
  function FixedLength(num: Numerics, s: Slider): Slider
  {
    if s.distances == [] || |s.distances| != |s.points| then s
    else
      var (p1, d1) := Trimmed(num, s.points, s.distances, s.length);
      var (p3, d3) := Lengthened(num, p1, d1, s.length);
      s.(points := p3, distances := d3)
  }

  /** Without distances, or with as many distances as points missing, the slider is left alone. */
  lemma FixNoOp(num: Numerics, s: Slider)
    requires s.distances == [] || |s.distances| != |s.points|
    ensures FixedLength(num, s) == s
  {
  }

  /**
   * Trimming keeps all points but the last from the original (with their
   * distances), never adds a point, and ends at exactly `len` when the path
   * overshot and two points remain.
   */
  lemma TrimmedSpec(num: Numerics, p: seq<Vector2>, d: seq<real>, len: real)
    requires |p| == |d| >= 1
    ensures var (p1, d1) := Trimmed(num, p, d, len);
      && |p1| <= |p|
      && p1[..|p1| - 1] == p[..|p1| - 1] && d1[..|p1| - 1] == d[..|p1| - 1]
      && (Last(d) <= len ==> (p1, d1) == (p, d))
      && (Last(d) > len && |p1| >= 2 ==> Last(d1) == len)
      && (NonDecreasing(d) ==> NonDecreasing(d1))
  {
    if Last(d) > len {
      ShrunkSpec(p, d, len);
      var (p2, d2) := Shrunk(p, d, len);
      if |p2| >= 2 && Last(d2) > len {
        var p3, d3 := p2[..|p2| - 1], d2[..|d2| - 1];
        assert p3 == p[..|p3|] && d3 == d[..|p3|];
        assert (p3 + [Add(Last(p3), Scale(len - Last(d3), LastDirection(num, p2)))])[..|p3|] == p3;
        assert (d3 + [len])[..|p3|] == d3;
      } else {
        assert p2[..|p2| - 1] == p[..|p2|][..|p2| - 1];
        assert d2[..|p2| - 1] == d[..|p2|][..|p2| - 1];
      }
    }
  }

  /** Lengthening keeps every point and adds at most one, ending at `len` when it adds one. */
  lemma LengthenedSpec(num: Numerics, p: seq<Vector2>, d: seq<real>, len: real)
    requires |p| == |d| >= 1
    ensures var (p1, d1) := Lengthened(num, p, d, len);
      && (p1 == p || p1 == p + [Last(p1)])
      && (d1 == d || (d1 == d + [len] && Last(d) < len && |p1| == |p| + 1))
      && (NonDecreasing(d) ==> NonDecreasing(d1))
  {
  }

  /**
   * Fitting keeps one distance per point and every other field; all points but
   * the last are kept from the original, at most one point is added, the last
   * distance equals the authored length whenever at least two points remain,
   * and non-decreasing distances stay non-decreasing.
   */
  lemma FixShape(num: Numerics, s: Slider)
    requires |s.distances| == |s.points| >= 1
    ensures var r := FixedLength(num, s);
      && r == s.(points := r.points, distances := r.distances)
      && |r.distances| == |r.points| >= 1
      && |r.points| <= |s.points| + 1
      && r.points[..|r.points| - 1] == s.points[..|r.points| - 1]
      && r.distances[..|r.points| - 1] == s.distances[..|r.points| - 1]
      && (|r.points| >= 2 ==> Last(r.distances) == s.length)
      && (NonDecreasing(s.distances) ==> NonDecreasing(r.distances))
  {
    var p, d, len := s.points, s.distances, s.length;
    TrimmedSpec(num, p, d, len);
    var (p1, d1) := Trimmed(num, p, d, len);
    LengthenedSpec(num, p1, d1, len);
    var (p3, d3) := Lengthened(num, p1, d1, len);
    if p3 != p1 {
      assert p3[..|p3| - 1] == p1;
      assert d3[..|p3| - 1] == d1;
    }
  }

  /**
   * When the path overshoots and some point lands exactly on the authored
   * length (the first to reach it), the path is cut just after that point and
   * no point is added.
   */
  lemma FixExactHit(num: Numerics, s: Slider, j: nat)
    requires |s.distances| == |s.points| && NonDecreasing(s.distances)
    requires 1 <= j < |s.distances| && s.distances[j] == s.length && s.distances[j - 1] < s.length
    requires Last(s.distances) > s.length
    ensures FixedLength(num, s) == s.(points := s.points[..j + 1], distances := s.distances[..j + 1])
  {
    ShrunkStopsAt(s.points, s.distances, s.length, j);
  }

  /**
   * `osu::fix_slider_length`: pops points that lie beyond the authored length,
   * moves the last point onto it, or extends the last step up to it.
   */
  method FixSliderLength(num: Numerics, s: Slider) returns (r: Slider)
    ensures r == FixedLength(num, s)
  {
    if s.distances == [] {
      return s;
    }
    if |s.distances| != |s.points| {
      return s;
    }
    var points, distances := Trim(num, s.points, s.distances, s.length);
    points, distances := Lengthen(num, points, distances, s.length);
    return s.(points := points, distances := distances);
  }

  /** The shrinking loop and the interpolation within the last segment. */
  method Trim(num: Numerics, p: seq<Vector2>, d: seq<real>, len: real)
    returns (points: seq<Vector2>, distances: seq<real>)
    requires |p| == |d| >= 1
    ensures (points, distances) == Trimmed(num, p, d, len)
  {
    points, distances := p, d;
    if distances[|distances| - 1] > len {
      while |points| >= 2 && distances[|distances| - 2] >= len
        invariant |points| == |distances| >= 1
        invariant Shrunk(points, distances, len) == Shrunk(p, d, len)
        decreases |points|
      {
        distances := distances[..|distances| - 1];
        points := points[..|points| - 1];
      }
      if |points| >= 2 && distances[|distances| - 1] > len {
        var direction := num.normal(Sub(points[|points| - 1], points[|points| - 2]));
        distances := distances[..|distances| - 1];
        points := points[..|points| - 1];
        var length := len - distances[|distances| - 1];
        distances := distances + [len];
        points := points + [Add(points[|points| - 1], Scale(length, direction))];
      }
    }
  }

  /** Lengthening the last segment. */
  method Lengthen(num: Numerics, p: seq<Vector2>, d: seq<real>, len: real)
    returns (points: seq<Vector2>, distances: seq<real>)
    requires |p| == |d| >= 1
    ensures (points, distances) == Lengthened(num, p, d, len)
  {
    points, distances := p, d;
    if distances[|distances| - 1] < len && |points| >= 2 {
      var direction := num.normal(Sub(points[|points| - 1], points[|points| - 2]));
      var length := len - distances[|distances| - 1];
      distances := distances + [len];
      points := points + [Add(points[|points| - 1], Scale(length, direction))];
    }
  }
}
