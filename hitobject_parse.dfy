/**
 * Reading one hit-object line, already split on `,` and left-trimmed, into a
 * circle, slider or spinner (src/parse_hitobject.cpp). Coordinates and the
 * slider length go through `std::stof`, which is the abstract `stof` of
 * `Numerics`; a curve point `x:y` goes through its `parsePoint`, applied to
 * the line text that starts at the point's part.
 */
module HitobjectParse {
  import opened Wrappers
  import opened Vec
  import opened Numerics
  import opened Strings
  import opened ParseString
  import opened BeatmapTypes

  /** `parse_value<std::chrono::milliseconds>(s)`: an `int` parse, 0 on failure. */
  function MsValue(s: string): int
  {
    OrElse(FromChars(s, true, Int32Min, Int32Max), 0)
  }

  /** `parse_circle`: never fails; x and y from tokens 0 and 1, time from token 2. */
  method ParseCircle(num: Numerics, tokens: seq<string>) returns (r: Option<Hitcircle>)
    requires |tokens| >= 3
    ensures r.Some?
    ensures r.value.pos == Vector2(num.stof(tokens[0]), num.stof(tokens[1]))
    ensures r.value.time == MsValue(tokens[2])
  {
    var circle := Hitcircle(Vector2(0.0, 0.0), 0);
    circle := circle.(pos := circle.pos.(x := num.stof(tokens[0])));
    circle := circle.(pos := circle.pos.(y := num.stof(tokens[1])));
    var time := ParseMs(tokens[2], circle.time);
    circle := circle.(time := time);
    r := Some(circle);
  }

  /** `parse_spinner`: needs 6 tokens; start from token 2 and end from token 5. */
  method ParseSpinner(tokens: seq<string>) returns (r: Option<Spinner>)
    ensures |tokens| < 6 <==> r.None?
    ensures r.Some? ==> r.value == Spinner(MsValue(tokens[2]), MsValue(tokens[5]))
  {
    if |tokens| < 6 {
      return None;
    }
    var start := ParseMs(tokens[2], 0);
    var end := ParseMs(tokens[5], 0);
    r := Some(Spinner(start, end));
  }

  /** The four curve letters `valid_slider_type` accepts for the first token. */
  predicate ValidKind(c: char)
  {
    c == LinearKind || c == PerfectKind || c == BezierKind || c == CatmullKind
  }

  /** The curve token (token 5) split on `|`, each part left-trimmed. */
  function CurveTokens(curve: string): seq<string>
  {
    LtrimAll(Tokens(curve, '|'))
  }

  /**
   * One left-trimmed part of the curve token, as the `std::string_view` it
   * is: its own text, and the text of the line from its first character on,
   * which is what `std::stof(&it->front(), ...)` reads from.
   */
  datatype Part = Part(text: string, rest: string)

  /**
   * The parts of the curve token `curve`, where `rest` is the line from the
   * curve's first character on: each part's text is the matching entry of
   * `CurveTokens(curve)` and starts the text that follows it on the line.
   */
  function CurveParts(curve: string, rest: string): (r: seq<Part>)
    requires PrefixOf(curve, rest)
    ensures |r| == |CurveTokens(curve)|
    ensures forall k :: 0 <= k < |r| ==>
      r[k].text == CurveTokens(curve)[k] && PrefixOf(r[k].text, r[k].rest) && SuffixOf(r[k].rest, rest)
  {
    var raw := Tokens(curve, '|');
    var rests := TokenRests(curve, '|', rest);
    var trimmed := LtrimRests(raw, rests);
    assert forall k :: 0 <= k < |raw| ==> SuffixOf(trimmed[k], rest) by {
      forall k | 0 <= k < |raw|
        ensures SuffixOf(trimmed[k], rest)
      {
        SuffixTrans(trimmed[k], rests[k], rest);
      }
    }
    seq(|raw|, k requires 0 <= k < |raw| => Part(LtrimAll(raw)[k], trimmed[k]))
  }

  /** The three reasons `parse_slider` gives up. */
  predicate SliderRejected(tokens: seq<string>)
  {
    |tokens| < 8
    || |CurveTokens(tokens[5])| < 2
    || CurveTokens(tokens[5])[0] == []
    || !ValidKind(CurveTokens(tokens[5])[0][0])
  }

  /**
   * One step of the segment builder on a token after the first: a
   * one-character token opens an empty segment of that kind; a point equal to
   * the current segment's last point moves that point into a new segment of
   * the same kind; any other point is appended to the current segment.
   */
  function SegmentStep(num: Numerics, segs: seq<Segment>, part: Part): (r: seq<Segment>)
    requires segs != []
    ensures r != [] && |r| >= |segs|
  {
    if |part.text| == 1 then segs + [Segment([], part.text[0])]
    else
      var p := num.parsePoint(part.rest);
      var last := segs[|segs| - 1];
      var init := segs[..|segs| - 1];
      if last.points != [] && Eq(last.points[|last.points| - 1], p) then
        init + [Segment(last.points[..|last.points| - 1], last.kind), Segment([p], last.kind)]
      else
        init + [Segment(last.points + [p], last.kind)]
  }

  /** The segments after feeding `toks` to the builder, left to right. */
  function SegmentsOf(num: Numerics, start: seq<Segment>, toks: seq<Part>): (r: seq<Segment>)
    requires start != []
    ensures r != [] && |r| >= |start|
  {
    if toks == [] then start
    else SegmentStep(num, SegmentsOf(num, start, toks[..|toks| - 1]), toks[|toks| - 1])
  }

  /** A value-initialised `Slider{}`. */
  const EmptySlider := Slider(0, 0, '\0', [], [], [], 0, 0.0)

  /**
   * `parse_slider`: needs 8 tokens and a curve token of at least two parts
   * whose first part begins with L, P, B or C. Time, repeat and length come
   * from tokens 2, 6 and 7; the first segment starts at (x, y) with the
   * curve's kind, and the remaining parts are fed to the segment builder.
   * `rests[i]` is the line from the first character of `tokens[i]` on.
   */
  method ParseSlider(num: Numerics, tokens: seq<string>, rests: seq<string>) returns (r: Option<Slider>)
    requires Anchored(tokens, rests)
    ensures r.None? <==> SliderRejected(tokens)
    ensures r.Some? ==>
      var sub := CurveTokens(tokens[5]);
      var first := Segment([Vector2(num.stof(tokens[0]), num.stof(tokens[1]))], sub[0][0]);
      && r.value.time == MsValue(tokens[2])
      && r.value.repeat == OrElse(FromChars(tokens[6], true, Int32Min, Int32Max), 0)
      && r.value.length == num.stof(tokens[7])
      && r.value.kind == sub[0][0]
      && r.value.segments == SegmentsOf(num, [first], CurveParts(tokens[5], rests[5])[1..])
      && r.value.duration == 0 && r.value.points == [] && r.value.distances == []
  {
    if |tokens| < 8 {
      return None;
    }
    var slider := EmptySlider;
    var time := ParseMs(tokens[2], slider.time);
    var repeat := ParseInt(tokens[6], slider.repeat);
    slider := slider.(time := time, repeat := repeat, length := num.stof(tokens[7]));

    var split := Split(tokens[5], '|');
    if |split| < 2 {
      return None;
    }
    var sub := LtrimAll(split);
    if sub[0] == [] || !ValidKind(sub[0][0]) {
      return None;
    }

    var kind := sub[0][0];
    var parts := CurveParts(tokens[5], rests[5]);
    var segments := BuildSegments(num, Segment([Vector2(num.stof(tokens[0]), num.stof(tokens[1]))], kind), parts);
    slider := slider.(kind := kind, segments := segments);
    r := Some(slider);
  }

  /** The token loop of `parse_slider`, from the first segment on, over every part after the first. */
  method BuildSegments(num: Numerics, first: Segment, sub: seq<Part>) returns (segments: seq<Segment>)
    requires |sub| >= 1
    ensures segments == SegmentsOf(num, [first], sub[1..])
  {
    segments := [first];
    var i := 1;
    while i < |sub|
      invariant 1 <= i <= |sub|
      invariant segments == SegmentsOf(num, [first], sub[1..i])
    {
      SegmentsOfSnoc(num, [first], sub, i);
      segments := AddCurveToken(num, segments, sub[i]);
      i := i + 1;
    }
    assert sub[1..i] == sub[1..];
  }

  /** Feeding one more part extends the fold by one step. */
  lemma SegmentsOfSnoc(num: Numerics, start: seq<Segment>, sub: seq<Part>, i: nat)
    requires start != [] && 1 <= i < |sub|
    ensures SegmentsOf(num, start, sub[1..i + 1]) == SegmentStep(num, SegmentsOf(num, start, sub[1..i]), sub[i])
  {
    var toks := sub[1..i + 1];
    assert toks[..|toks| - 1] == sub[1..i];
    assert toks[|toks| - 1] == sub[i];
  }

  /** One iteration of the token loop: `emplace_back`, `pop_back` and `push_back` on the segments. */
  method AddCurveToken(num: Numerics, segs: seq<Segment>, part: Part) returns (segments: seq<Segment>)
    requires segs != []
    ensures segments == SegmentStep(num, segs, part)
  {
    segments := segs;
    if |part.text| == 1 {
      segments := segments + [Segment([], part.text[0])];
      return;
    }
    var point := num.parsePoint(part.rest);
    var last := segments[|segments| - 1];
    if last.points != [] && Eq(last.points[|last.points| - 1], point) {
      segments := segments[..|segments| - 1];
      segments := segments + [Segment(last.points[..|last.points| - 1], last.kind)];
      segments := segments + [Segment([point], last.kind)];
      return;
    }
    segments := segments[..|segments| - 1] + [Segment(last.points + [point], last.kind)];
  }

  /** Total number of points over all segments. */
  function PointCount(segs: seq<Segment>): nat
  {
    if segs == [] then 0 else PointCount(segs[..|segs| - 1]) + |segs[|segs| - 1].points|
  }

  lemma PointCountSnoc(segs: seq<Segment>, s: Segment)
    ensures PointCount(segs + [s]) == PointCount(segs) + |s.points|
  {
    assert (segs + [s])[..|segs|] == segs;
  }

  /** Every step adds exactly one segment or one point, never both and never neither. */
  lemma SegmentStepCounts(num: Numerics, segs: seq<Segment>, tok: Part)
    requires segs != []
    ensures var r := SegmentStep(num, segs, tok);
      |r| + PointCount(r) == |segs| + PointCount(segs) + 1
  {
    var last := segs[|segs| - 1];
    var init := segs[..|segs| - 1];
    assert segs == init + [last];
    PointCountSnoc(init, last);
    if |tok.text| == 1 {
      PointCountSnoc(segs, Segment([], tok.text[0]));
    } else {
      var p := num.parsePoint(tok.rest);
      if last.points != [] && Eq(last.points[|last.points| - 1], p) {
        var a := Segment(last.points[..|last.points| - 1], last.kind);
        PointCountSnoc(init, a);
        PointCountSnoc(init + [a], Segment([p], last.kind));
        assert init + [a] + [Segment([p], last.kind)] == init + [a, Segment([p], last.kind)];
      } else {
        PointCountSnoc(init, Segment(last.points + [p], last.kind));
      }
    }
  }

  /**
   * Segments plus points grow by exactly one per part: with the first segment
   * holding only (x, y), a curve of `n` parts after the first yields
   * `|segments| + points == 2 + n`.
   */
  lemma {:induction false} SegmentsOfCounts(num: Numerics, start: seq<Segment>, toks: seq<Part>)
    requires start != []
    ensures var r := SegmentsOf(num, start, toks);
      |r| + PointCount(r) == |start| + PointCount(start) + |toks|
    decreases |toks|
  {
    if toks != [] {
      SegmentsOfCounts(num, start, toks[..|toks| - 1]);
      SegmentStepCounts(num, SegmentsOf(num, start, toks[..|toks| - 1]), toks[|toks| - 1]);
    }
  }

  /** Number of one-character parts: each opens a segment. */
  function SingleCount(toks: seq<Part>): nat
  {
    if toks == [] then 0
    else SingleCount(toks[..|toks| - 1]) + (if |toks[|toks| - 1].text| == 1 then 1 else 0)
  }

  /** There is at least one segment per one-character part, on top of the first. */
  lemma {:induction false} SegmentsOfAtLeast(num: Numerics, start: seq<Segment>, toks: seq<Part>)
    requires start != []
    ensures |SegmentsOf(num, start, toks)| >= |start| + SingleCount(toks)
    decreases |toks|
  {
    if toks != [] {
      SegmentsOfAtLeast(num, start, toks[..|toks| - 1]);
    }
  }

  /** No segment holds two equal points in a row. */
  predicate NoRepeatedPoints(segs: seq<Segment>)
  {
    forall k, i :: 0 <= k < |segs| && 0 < i < |segs[k].points| ==> segs[k].points[i - 1] != segs[k].points[i]
  }

  /** A step never puts a point right after an equal one, and keeps the first segment's kind. */
  lemma SegmentStepNoRepeats(num: Numerics, segs: seq<Segment>, tok: Part)
    requires segs != [] && NoRepeatedPoints(segs)
    ensures var r := SegmentStep(num, segs, tok);
      NoRepeatedPoints(r) && r[0].kind == segs[0].kind
  {
    var r := SegmentStep(num, segs, tok);
    var last := segs[|segs| - 1];
    forall k, i | 0 <= k < |r| && 0 < i < |r[k].points|
      ensures r[k].points[i - 1] != r[k].points[i]
    {
      if k < |segs| - 1 {
        assert r[k] == segs[k];
      } else if k == |segs| - 1 && |tok.text| != 1 {
        assert r[k].points[i - 1] == last.points[i - 1];
        if i < |last.points| {
          assert r[k].points[i] == last.points[i];
        }
      }
    }
  }

  /**
   * The built segments never hold a repeated point, and the first segment
   * keeps the curve's kind.
   */
  lemma {:induction false} SegmentsOfNoRepeats(num: Numerics, start: seq<Segment>, toks: seq<Part>)
    requires start != [] && NoRepeatedPoints(start)
    ensures var r := SegmentsOf(num, start, toks);
      NoRepeatedPoints(r) && r[0].kind == start[0].kind
    decreases |toks|
  {
    if toks != [] {
      SegmentsOfNoRepeats(num, start, toks[..|toks| - 1]);
      SegmentStepNoRepeats(num, SegmentsOf(num, start, toks[..|toks| - 1]), toks[|toks| - 1]);
    }
  }
}
