/**
 * What `Beatmap_parser` (src/beatmap_parser.cpp) computes, as functions of
 * its state and its input lines: one function per line handler, the line
 * dispatcher, the loop over the body and the whole of `parse_impl`. The
 * parser class in module BeatmapParser is proved to compute exactly these.
 */
module ParserSpec {
  import opened Wrappers
  import opened Vec
  import opened Numerics
  import opened Strings
  import opened ParseString
  import opened BeatmapTypes
  import opened BeatmapFields
  import opened Timing
  import opened HitobjectParse
  import opened SliderPath
  import opened ParserText

  /**
   * What a parse depends on besides its input: the library calls, the
   * `slider_paths` flag, and the iteration bound of the Bézier approximation.
   */
  datatype Config = Config(num: Numerics, sliderPaths: bool, fuel: nat)

  /**
   * The parser's fields `beatmap_`, `section_` and `current_timingpoint_`; the
   * iterator is an index into the timing points, and their end is `|timingpoints|`.
   */
  datatype State = State(beatmap: Beatmap, section: Section, cursor: nat)

  /** The timing cursor points into the timing points or at their end. */
  predicate CursorValid(st: State)
  {
    st.cursor <= |st.beatmap.timingpoints|
  }

  // ---------------------------------------------------------------------
  // [Events]

  const BackgroundPrefix: string := "0,0,\""
  const BreakPrefix: string := "2,"

  /**
   * `parse_events`: a `0,0,"` line sets the background to the text up to the
   * next `"` (and to nothing when there is none); a `2,` line appends a break
   * when the rest splits on `,` into exactly two tokens.
   */
  function EventsStep(bm: Beatmap, line: string): Beatmap
  {
    if StartsWith(line, BackgroundPrefix) then
      var rest := line[|BackgroundPrefix|..];
      match IndexOf(rest, '"')
      case None => bm
      case Some(e) => bm.(background := rest[..e])
    else if StartsWith(line, BreakPrefix) then
      var tokens := Tokens(line[|BreakPrefix|..], ',');
      if |tokens| != 2 then bm
      else bm.(breaks := bm.breaks + [Break(IntOr(LtrimView(tokens[0]), 0), IntOr(LtrimView(tokens[1]), 0))])
    else bm
  }

  /** The background is the text between the prefix and the next quote. */
  lemma EventsBackground(bm: Beatmap, t: string, rest: string)
    requires Free(t, '"')
    ensures EventsStep(bm, BackgroundPrefix + t + "\"" + rest) == bm.(background := t)
  {
    var line := BackgroundPrefix + t + "\"" + rest;
    var after := line[|BackgroundPrefix|..];
    assert after == t + "\"" + rest;
    assert after[|t|] == '"';
    assert after[..|t|] == t;
  }

  /** Without a closing quote the background is left as it was. */
  lemma EventsUnclosedBackground(bm: Beatmap, t: string)
    requires Free(t, '"')
    ensures EventsStep(bm, BackgroundPrefix + t) == bm
  {
    var line := BackgroundPrefix + t;
    assert line[|BackgroundPrefix|..] == t;
  }

  /** The decimal spelling of an integer is one token that `ltrim_view` leaves alone. */
  lemma DecimalToken(n: int)
    ensures Decimal(n) != [] && Free(Decimal(n), ',') && !IsSpace(Decimal(n)[0])
  {
    var ds := Digits(if n < 0 then -n else n);
    assert forall j :: 0 <= j < |ds| ==> IsDigit(ds[j]);
    if n < 0 {
      assert Decimal(n) == "-" + ds;
      assert forall j :: 1 <= j < |Decimal(n)| ==> Decimal(n)[j] == ds[j - 1];
    }
  }

  /** An in-range integer spelt in decimal reads back, trimmed, as itself. */
  lemma DecimalReadsBack(n: int)
    requires Int32Min <= n <= Int32Max
    ensures IntOr(LtrimView(Decimal(n)), 0) == n
  {
    DecimalToken(n);
    LtrimViewFixed(Decimal(n));
    FromCharsDecimal(n, [], Int32Min, Int32Max);
    assert Decimal(n) + [] == Decimal(n);
  }

  /** The rest of a `2,start,end` line splits into the two spellings. */
  lemma BreakTokens(a: int, b: int)
    ensures var line := BreakPrefix + Decimal(a) + "," + Decimal(b);
      && StartsWith(line, BreakPrefix) && !StartsWith(line, BackgroundPrefix)
      && Tokens(line[|BreakPrefix|..], ',') == [Decimal(a), Decimal(b)]
  {
    var line := BreakPrefix + (Decimal(a) + "," + Decimal(b));
    assert line == BreakPrefix + Decimal(a) + "," + Decimal(b);
    BreakLinePrefix(Decimal(a) + "," + Decimal(b));
    DecimalToken(a);
    DecimalToken(b);
    assert Decimal(a) + "," + Decimal(b) == Decimal(a) + [','] + Decimal(b);
    TokensOfPair(Decimal(a), Decimal(b), ',');
  }

  /** A line made of the break prefix and a rest starts with that prefix and not with the background one. */
  lemma BreakLinePrefix(rest: string)
    ensures var line := BreakPrefix + rest;
      StartsWith(line, BreakPrefix) && !StartsWith(line, BackgroundPrefix) && line[|BreakPrefix|..] == rest
  {
    var line := BreakPrefix + rest;
    assert line[0] == '2';
    assert line[..2] == BreakPrefix;
  }

  /** A `2,start,end` line with two in-range integers appends exactly that break. */
  lemma EventsBreak(bm: Beatmap, a: int, b: int)
    requires Int32Min <= a <= Int32Max && Int32Min <= b <= Int32Max
    ensures EventsStep(bm, BreakPrefix + Decimal(a) + "," + Decimal(b)) == bm.(breaks := bm.breaks + [Break(a, b)])
  {
    BreakTokens(a, b);
    DecimalReadsBack(a);
    DecimalReadsBack(b);
  }

  /**
   * An events line changes nothing but the background and the breaks, and
   * the breaks only grow, by one break exactly when the line starts with
   * `2,` and its rest splits into two tokens.
   */
  lemma EventsKeepsTheRest(bm: Beatmap, line: string)
    ensures var r := EventsStep(bm, line);
      && r == bm.(background := r.background, breaks := r.breaks)
      && bm.breaks <= r.breaks
      && (|r.breaks| == |bm.breaks| + 1 <==>
            !(BackgroundPrefix <= line) && BreakPrefix <= line && |Tokens(line[|BreakPrefix|..], ',')| == 2)
      && (|r.breaks| == |bm.breaks| || |r.breaks| == |bm.breaks| + 1)
  {
  }

  // ---------------------------------------------------------------------
  // [TimingPoints]

  /**
   * The most recent uninherited point: the reverse `std::find_if` over the
   * timing points. `None` when every point is inherited.
   */
  function LastUninherited(tps: seq<Timingpoint>): (r: Option<nat>)
    ensures r.Some? ==> r.value < |tps| && tps[r.value].uninherited
    ensures forall j :: 0 <= j < |tps| && (r.None? || r.value < j) ==> !tps[j].uninherited
  {
    if tps == [] then None
    else if tps[|tps| - 1].uninherited then Some(|tps| - 1)
    else LastUninherited(tps[..|tps| - 1])
  }

  /**
   * The beat duration in whole microseconds of a point whose second value is
   * `v`: `v` milliseconds for an uninherited point; for an inherited one,
   * `-v` percent of the last uninherited point's duration, or 0 without one.
   * `duration_cast` truncates toward zero.
   */
  function BeatDuration(tps: seq<Timingpoint>, v: real): int
  {
    if v < 0.0 then
      match LastUninherited(tps)
      case None => 0
      case Some(i) => Trunc(0.01 * (-v) * tps[i].beatDuration as real)
    else Trunc(v * 1000.0)
  }

  /** An inherited point scales the duration of the latest uninherited point before it. */
  lemma InheritedDuration(tps: seq<Timingpoint>, v: real, k: nat)
    requires v < 0.0 && k < |tps| && tps[k].uninherited
    requires forall j :: k < j < |tps| ==> !tps[j].uninherited
    ensures BeatDuration(tps, v) == Trunc(0.01 * (-v) * tps[k].beatDuration as real)
  {
    var r := LastUninherited(tps);
    assert r.Some?;
    assert r.value == k;
  }

  /** An inherited point with no uninherited point before it lasts 0. */
  lemma OrphanInheritedDuration(tps: seq<Timingpoint>, v: real)
    requires v < 0.0
    requires forall j :: 0 <= j < |tps| ==> !tps[j].uninherited
    ensures BeatDuration(tps, v) == 0
  {
  }

  /** The point a timing line describes: its eight left-trimmed tokens, token 6 unused. */
  function TimingpointOf(num: Numerics, tps: seq<Timingpoint>, tokens: seq<string>): Timingpoint
    requires |tokens| >= 8
  {
    var v := num.stof(tokens[1]);
    Timingpoint(
      MsValue(tokens[0]),
      BeatDuration(tps, v),
      IntOr(tokens[2], 0),
      IntOr(tokens[3], 0),
      IntOr(tokens[4], 0),
      IntOr(tokens[5], 0),
      !(v < 0.0),
      BoolOf(tokens[7], false))
  }

  /**
   * `parse_timingpoints`: fewer than eight tokens change nothing; otherwise
   * the point is appended and the cursor goes back to the first point.
   */
  function TimingStep(num: Numerics, st: State, line: string): State
  {
    var tokens := Tokens(line, ',');
    if |tokens| < 8 then st
    else
      var bm := st.beatmap;
      var point := TimingpointOf(num, bm.timingpoints, LtrimAll(tokens));
      State(bm.(timingpoints := bm.timingpoints + [point]), st.section, 0)
  }

  /**
   * A timing line of eight or more tokens appends one point, marked
   * uninherited exactly when its second value is not negative, and resets the
   * cursor; nothing else changes. A shorter line changes nothing.
   */
  lemma TimingStepAppends(num: Numerics, st: State, line: string)
    ensures var r := TimingStep(num, st, line);
      var tokens := LtrimAll(Tokens(line, ','));
      && (|tokens| < 8 ==> r == st)
      && (|tokens| >= 8 ==>
            && |r.beatmap.timingpoints| == |st.beatmap.timingpoints| + 1
            && r.beatmap.timingpoints[..|st.beatmap.timingpoints|] == st.beatmap.timingpoints
            && (r.beatmap.timingpoints[|st.beatmap.timingpoints|].uninherited <==> num.stof(tokens[1]) >= 0.0)
            && r.beatmap == st.beatmap.(timingpoints := r.beatmap.timingpoints)
            && r.section == st.section && r.cursor == 0 && CursorValid(r))
  {
    var tokens := LtrimAll(Tokens(line, ','));
    if |tokens| >= 8 {
      var r := TimingStep(num, st, line);
      assert r.beatmap.timingpoints[..|st.beatmap.timingpoints|] == st.beatmap.timingpoints;
    }
  }

  // ---------------------------------------------------------------------
  // [HitObjects]

  /**
   * `(type & mask) != 0` for a one-bit mask: with floor division, bit `k`
   * of an `int` is `(type / 2^k) % 2` in two's complement as well.
   */
  predicate HasBit(kind: int, mask: nat)
    requires mask > 0
  {
    (kind / mask) % 2 == 1
  }

  const CircleMask: nat := 1
  const SliderMask: nat := 2
  const SpinnerMask: nat := 8

  /** What `parse_circle` returns. */
  function CircleOf(num: Numerics, tokens: seq<string>): Hitcircle
    requires |tokens| >= 3
  {
    Hitcircle(Vector2(num.stof(tokens[0]), num.stof(tokens[1])), MsValue(tokens[2]))
  }

  /** What `parse_slider` returns; `rests[i]` is the line from the first character of `tokens[i]` on. */
  function SliderOf(num: Numerics, tokens: seq<string>, rests: seq<string>): Option<Slider>
    requires Anchored(tokens, rests)
  {
    if SliderRejected(tokens) then None
    else
      var sub := CurveTokens(tokens[5]);
      var first := Segment([Vector2(num.stof(tokens[0]), num.stof(tokens[1]))], sub[0][0]);
      Some(Slider(MsValue(tokens[2]), 0, sub[0][0], SegmentsOf(num, [first], CurveParts(tokens[5], rests[5])[1..]), [], [],
                  IntOr(tokens[6], 0), num.stof(tokens[7])))
  }

  /** What `parse_spinner` returns. */
  function SpinnerOf(tokens: seq<string>): Option<Spinner>
  {
    if |tokens| < 6 then None else Some(Spinner(MsValue(tokens[2]), MsValue(tokens[5])))
  }

  /**
   * The slider duration in milliseconds: `length / (slider_multiplier * 100)`
   * beats of `beat` microseconds, truncated. A zero multiplier, for which the
   * source's float-to-integer conversion is undefined, keeps the duration.
   */
  function SliderDuration(s: Slider, sliderMultiplier: real, beat: int): int
  {
    if sliderMultiplier == 0.0 then s.duration
    else Trunc(s.length / (sliderMultiplier * 100.0) * beat as real / 1000.0)
  }

  /** Truncation to whole milliseconds: the exact duration lies in `[d, d + 1)` for non-negative inputs. */
  lemma SliderDurationBounds(s: Slider, sliderMultiplier: real, beat: int)
    requires sliderMultiplier > 0.0 && s.length >= 0.0 && beat >= 0
    ensures var d := SliderDuration(s, sliderMultiplier, beat);
      var exact := s.length / (sliderMultiplier * 100.0) * beat as real / 1000.0;
      d >= 0 && d as real <= exact < d as real + 1.0
  {
    var q := s.length / (sliderMultiplier * 100.0);
    assert q >= 0.0;
    assert q * beat as real >= 0.0;
  }

  /**
   * The timing half of a slider: only when the cursor is not at the end is
   * it moved with `next_timingpoint` and the duration computed from the
   * point it lands on.
   */
  function Timed(tps: seq<Timingpoint>, cursor: nat, sliderMultiplier: real, s: Slider): (r: (Slider, nat))
    requires cursor <= |tps|
    ensures cursor <= r.1 <= |tps|
    ensures r.1 == |tps| <==> cursor == |tps|
  {
    if cursor == |tps| then (s, cursor)
    else
      var c := NextTimingpoint(tps, cursor, s.time);
      (s.(duration := SliderDuration(s, sliderMultiplier, tps[c].beatDuration)), c)
  }

  /**
   * The path half of a slider, with `slider_paths` set: points from
   * `sliderpath` (which may throw), their distances, then `fix_slider_length`.
   */
  function WithPath(cfg: Config, s: Slider): Outcome<Slider>
    requires ValidNumerics(cfg.num)
  {
    if !cfg.sliderPaths then Done(s)
    else
      match Sliderpath(cfg.num, s.segments, cfg.fuel)
      case Throws => Throws
      case Done(points) => Done(FixedLength(cfg.num, s.(points := points, distances := PathLengths(cfg.num, points))))
  }

  /** The line from the first character of each left-trimmed `,` token on. */
  function LineRests(line: string): (r: seq<string>)
    ensures Anchored(LtrimAll(Tokens(line, ',')), r)
  {
    assert line[..|line|] == line;
    LtrimRests(Tokens(line, ','), TokenRests(line, ',', line))
  }

  /**
   * `parse_hitobject`: fewer than four tokens change nothing; otherwise the
   * type's circle bit wins over its slider bit, which wins over its spinner
   * bit, and a rejected hit object adds nothing.
   */
  function HitobjectStep(cfg: Config, st: State, line: string): Outcome<State>
    requires ValidNumerics(cfg.num) && CursorValid(st)
  {
    var tokens := Tokens(line, ',');
    if |tokens| < 4 then Done(st)
    else
      var t := LtrimAll(tokens);
      var kind := IntOr(t[3], 0);
      var bm := st.beatmap;
      if HasBit(kind, CircleMask) then
        Done(st.(beatmap := bm.(circles := bm.circles + [CircleOf(cfg.num, t)])))
      else if HasBit(kind, SliderMask) then
        match SliderOf(cfg.num, t, LineRests(line))
        case None => Done(st)
        case Some(s) =>
          var (timed, c) := Timed(bm.timingpoints, st.cursor, bm.difficulty.sliderMultiplier, s);
          match WithPath(cfg, timed)
          case Throws => Throws
          case Done(slider) => Done(State(bm.(sliders := bm.sliders + [slider]), st.section, c))
      else if HasBit(kind, SpinnerMask) then
        match SpinnerOf(t)
        case None => Done(st)
        case Some(sp) => Done(st.(beatmap := bm.(spinners := bm.spinners + [sp])))
      else Done(st)
  }

  /** The three hit-object lists together. */
  function HitobjectCount(bm: Beatmap): nat
  {
    |bm.circles| + |bm.sliders| + |bm.spinners|
  }

  /**
   * A hit-object line adds at most one hit object, and a line whose type has
   * the circle bit adds exactly its circle whatever its other bits; the
   * cursor only moves forward.
   */
  lemma HitobjectStepAddsOne(cfg: Config, st: State, line: string)
    requires ValidNumerics(cfg.num) && CursorValid(st)
    ensures var r := HitobjectStep(cfg, st, line);
      r.Done? ==>
        && HitobjectCount(st.beatmap) <= HitobjectCount(r.value.beatmap) <= HitobjectCount(st.beatmap) + 1
        && st.cursor <= r.value.cursor && CursorValid(r.value)
    ensures var t := LtrimAll(Tokens(line, ','));
      |t| >= 4 && HasBit(IntOr(t[3], 0), CircleMask) ==>
        HitobjectStep(cfg, st, line) == Done(st.(beatmap := st.beatmap.(circles := st.beatmap.circles + [CircleOf(cfg.num, t)])))
  {
  }

  /** A slider line whose type has the slider bit but not the circle bit, and that `parse_slider` rejects, changes nothing. */
  lemma RejectedSliderIgnored(cfg: Config, st: State, line: string)
    requires ValidNumerics(cfg.num) && CursorValid(st)
    requires var t := LtrimAll(Tokens(line, ','));
      |t| >= 4 && !HasBit(IntOr(t[3], 0), CircleMask) && HasBit(IntOr(t[3], 0), SliderMask) && SliderRejected(t)
    ensures HitobjectStep(cfg, st, line) == Done(st)
  {
  }

  // ---------------------------------------------------------------------
  // parse_line and the body loop

  /**
   * `parse_line`: an empty line does nothing; a line starting with `[` only
   * sets the section; any other line goes to the current section's handler,
   * and the `[Colours]` and unknown sections have none.
   */
  function LineStep(cfg: Config, st: State, line: string): Outcome<State>
    requires ValidNumerics(cfg.num) && CursorValid(st)
  {
    if line == [] then Done(st)
    else if StartsWith(line, "[") then Done(st.(section := SectionOf(line)))
    else
      match st.section
      case General => Done(st.(beatmap := KeyValue(cfg.num, GeneralTable, st.beatmap, line)))
      case Editor => Done(st.(beatmap := KeyValue(cfg.num, EditorTable, st.beatmap, line)))
      case Metadata => Done(st.(beatmap := KeyValue(cfg.num, MetadataTable, st.beatmap, line)))
      case Difficulty => Done(st.(beatmap := KeyValue(cfg.num, DifficultyTable, st.beatmap, line)))
      case Events => Done(st.(beatmap := EventsStep(st.beatmap, line)))
      case TimingPoints => Done(TimingStep(cfg.num, st, line))
      case HitObjects => HitobjectStep(cfg, st, line)
      case Colours => Done(st)
      case NoSection => Done(st)
  }

  /**
   * What a line can do to the beatmap: the version stays, and breaks, timing
   * points and hit objects are only ever appended to.
   */
  predicate Grows(a: Beatmap, b: Beatmap)
  {
    && a.version == b.version
    && a.breaks <= b.breaks
    && a.timingpoints <= b.timingpoints
    && a.circles <= b.circles
    && a.sliders <= b.sliders
    && a.spinners <= b.spinners
  }

  lemma GrowsTransitive(a: Beatmap, b: Beatmap, c: Beatmap)
    requires Grows(a, b) && Grows(b, c)
    ensures Grows(a, c)
  {
    assert a.breaks == b.breaks[..|a.breaks|] == c.breaks[..|a.breaks|];
    assert a.timingpoints == b.timingpoints[..|a.timingpoints|] == c.timingpoints[..|a.timingpoints|];
    assert a.circles == b.circles[..|a.circles|] == c.circles[..|a.circles|];
    assert a.sliders == b.sliders[..|a.sliders|] == c.sliders[..|a.sliders|];
    assert a.spinners == b.spinners[..|a.spinners|] == c.spinners[..|a.spinners|];
  }

  /**
   * Every line keeps the beatmap growing and the cursor valid, and the cursor
   * moves backwards only when a timing point has just been appended (it is
   * then back at the first point).
   */
  lemma LineStepGrows(cfg: Config, st: State, line: string)
    requires ValidNumerics(cfg.num) && CursorValid(st)
    ensures var r := LineStep(cfg, st, line);
      r.Done? ==>
        && Grows(st.beatmap, r.value.beatmap)
        && CursorValid(r.value)
        && (r.value.cursor < st.cursor ==>
              r.value.cursor == 0 && |r.value.beatmap.timingpoints| == |st.beatmap.timingpoints| + 1)
  {
    if line != [] && !StartsWith(line, "[") {
      match st.section
      case General => KeyValueKeepsSections(cfg.num, GeneralTable, st.beatmap, line);
      case Editor => KeyValueKeepsSections(cfg.num, EditorTable, st.beatmap, line);
      case Metadata => KeyValueKeepsSections(cfg.num, MetadataTable, st.beatmap, line);
      case Difficulty => KeyValueKeepsSections(cfg.num, DifficultyTable, st.beatmap, line);
      case Events => EventsKeepsTheRest(st.beatmap, line);
      case TimingPoints => TimingStepAppends(cfg.num, st, line);
      case HitObjects => HitobjectGrows(cfg, st, line);
      case Colours =>
      case NoSection =>
    }
  }

  lemma HitobjectGrows(cfg: Config, st: State, line: string)
    requires ValidNumerics(cfg.num) && CursorValid(st)
    ensures var r := HitobjectStep(cfg, st, line);
      r.Done? ==> Grows(st.beatmap, r.value.beatmap) && CursorValid(r.value) && st.cursor <= r.value.cursor
  {
  }

  /** A line as the body loop hands it to `parse_line`: `'\0'`s stripped when the file is UTF-16/32, then trimmed. */
  function Prepared(line: string, utf: bool): string
  {
    TrimView(if utf then RemoveNul(line) else line)
  }

  /** The body loop of `parse_impl`: every line in order; an exception ends the parse. */
  function Body(cfg: Config, st: State, lines: seq<string>, utf: bool): (r: Outcome<State>)
    requires ValidNumerics(cfg.num) && CursorValid(st)
    ensures r.Done? ==> CursorValid(r.value)
    decreases |lines|
  {
    if lines == [] then Done(st)
    else
      LineStepGrows(cfg, st, Prepared(lines[0], utf));
      match LineStep(cfg, st, Prepared(lines[0], utf))
      case Throws => Throws
      case Done(next) => Body(cfg, next, lines[1..], utf)
  }

  /** The body loop over two runs of lines is the loop over the second run from where the first left off. */
  lemma {:induction false} BodyAppend(cfg: Config, st: State, a: seq<string>, b: seq<string>, utf: bool)
    requires ValidNumerics(cfg.num) && CursorValid(st)
    ensures Body(cfg, st, a + b, utf) ==
      match Body(cfg, st, a, utf)
      case Throws => Throws
      case Done(mid) => Body(cfg, mid, b, utf)
    decreases |a|
  {
    if a == [] {
      assert a + b == b;
    } else {
      assert (a + b)[0] == a[0] && (a + b)[1..] == a[1..] + b;
      LineStepGrows(cfg, st, Prepared(a[0], utf));
      match LineStep(cfg, st, Prepared(a[0], utf))
      case Throws =>
      case Done(next) => BodyAppend(cfg, next, a[1..], b, utf);
    }
  }

  /** Over a whole body the beatmap only grows and the cursor stays valid. */
  lemma {:induction false} BodyGrows(cfg: Config, st: State, lines: seq<string>, utf: bool)
    requires ValidNumerics(cfg.num) && CursorValid(st)
    ensures Body(cfg, st, lines, utf).Done? ==>
      Grows(st.beatmap, Body(cfg, st, lines, utf).value.beatmap) && CursorValid(Body(cfg, st, lines, utf).value)
    decreases |lines|
  {
    if lines != [] {
      LineStepGrows(cfg, st, Prepared(lines[0], utf));
      match LineStep(cfg, st, Prepared(lines[0], utf))
      case Throws =>
      case Done(next) =>
        BodyGrows(cfg, next, lines[1..], utf);
        if Body(cfg, st, lines, utf).Done? {
          GrowsTransitive(st.beatmap, next.beatmap, Body(cfg, st, lines, utf).value.beatmap);
        }
    }
  }

  /** A line is a section header for the body loop when, once prepared, it starts with `[`. */
  predicate IsHeaderLine(line: string, utf: bool)
  {
    StartsWith(Prepared(line, utf), "[")
  }

  /** In `[Colours]` or outside any known section, lines up to the next header change nothing. */
  lemma {:induction false} IgnoredSectionBody(cfg: Config, st: State, lines: seq<string>, utf: bool)
    requires ValidNumerics(cfg.num) && CursorValid(st)
    requires st.section == Colours || st.section == NoSection
    requires forall i :: 0 <= i < |lines| ==> !IsHeaderLine(lines[i], utf)
    ensures Body(cfg, st, lines, utf) == Done(st)
    decreases |lines|
  {
    if lines != [] {
      assert !IsHeaderLine(lines[0], utf);
      assert LineStep(cfg, st, Prepared(lines[0], utf)) == Done(st);
      IgnoredSectionBody(cfg, st, lines[1..], utf);
    }
  }

  /** A header line switches the section and nothing else, for the lines that follow it. */
  lemma HeaderLineSwitches(cfg: Config, st: State, header: string, rest: seq<string>, utf: bool)
    requires ValidNumerics(cfg.num) && CursorValid(st)
    requires IsHeaderLine(header, utf)
    ensures Body(cfg, st, [header] + rest, utf) ==
      Body(cfg, st.(section := SectionOf(Prepared(header, utf))), rest, utf)
  {
    assert ([header] + rest)[1..] == rest;
  }

  // ---------------------------------------------------------------------
  // parse_impl

  const VersionPrefix: string := "osu file format v"

  /** A line as the version search sees it: `'\0'`s stripped when the file is UTF-16/32, not trimmed. */
  function Formatted(line: string, utf: bool): string
  {
    if utf then RemoveNul(line) else line
  }

  /**
   * The version search from line `k` on: the first line containing
   * `osu file format v`, with the position just past the first occurrence.
   */
  function VersionLine(lines: seq<string>, utf: bool, k: nat): (r: Option<(nat, nat)>)
    requires k <= |lines|
    ensures r.Some? ==>
      && k <= r.value.0 < |lines|
      && r.value.1 >= |VersionPrefix|
      && OccursAt(Formatted(lines[r.value.0], utf), VersionPrefix, r.value.1 - |VersionPrefix|)
    ensures forall j :: k <= j < |lines| && (r.None? || j < r.value.0) ==>
      Find(Formatted(lines[j], utf), VersionPrefix).None?
    decreases |lines| - k
  {
    if k == |lines| then None
    else
      var found := Find(Formatted(lines[k], utf), VersionPrefix);
      if found.Some? then Some((k, found.value + |VersionPrefix|))
      else
        var r := VersionLine(lines, utf, k + 1);
        NoVersionBefore(lines, utf, k, r);
        r
  }

  /** A line without the prefix in front of a stretch without it extends that stretch. */
  lemma NoVersionBefore(lines: seq<string>, utf: bool, k: nat, r: Option<(nat, nat)>)
    requires k < |lines| && Find(Formatted(lines[k], utf), VersionPrefix).None?
    requires forall j :: k < j < |lines| && (r.None? || j < r.value.0) ==>
      Find(Formatted(lines[j], utf), VersionPrefix).None?
    ensures forall j :: k <= j < |lines| && (r.None? || j < r.value.0) ==>
      Find(Formatted(lines[j], utf), VersionPrefix).None?
  {
    hide Find, Formatted;
  }

  /**
   * The same search over the lines still to come, as the parser runs it: the
   * formatted line holding the prefix, the position just past the prefix's
   * first occurrence, and the lines after that line.
   */
  function VersionSearch(lines: seq<string>, utf: bool): (r: Option<(string, nat, seq<string>)>)
    ensures r.Some? ==> r.value.1 >= |VersionPrefix| && OccursAt(r.value.0, VersionPrefix, r.value.1 - |VersionPrefix|)
  {
    if lines == [] then None
    else
      match Find(Formatted(lines[0], utf), VersionPrefix)
      case Some(pos) => Some((Formatted(lines[0], utf), pos + |VersionPrefix|, lines[1..]))
      case None => VersionSearch(lines[1..], utf)
  }

  /** A search result by index, as the line found, the position and the lines after it. */
  function Located(lines: seq<string>, utf: bool, r: Option<(nat, nat)>): Option<(string, nat, seq<string>)>
    requires r.Some? ==> r.value.0 < |lines|
  {
    if r.None? then None
    else Some((Formatted(lines[r.value.0], utf), r.value.1, lines[r.value.0 + 1..]))
  }

  /** The search over the lines from `k` on finds what the search by index finds. */
  lemma {:induction false} VersionSearchAt(lines: seq<string>, utf: bool, k: nat)
    requires k <= |lines|
    ensures VersionSearch(lines[k..], utf) == Located(lines, utf, VersionLine(lines, utf, k))
    decreases |lines| - k
  {
    if k < |lines| {
      assert lines[k..][0] == lines[k];
      assert lines[k..][1..] == lines[k + 1..];
      if Find(Formatted(lines[k], utf), VersionPrefix).None? {
        VersionSearchAt(lines, utf, k + 1);
      }
    }
  }

  /** The search from the first line on. */
  lemma VersionSearchAll(lines: seq<string>, utf: bool)
    ensures VersionSearch(lines, utf) == Located(lines, utf, VersionLine(lines, utf, 0))
  {
    VersionSearchAt(lines, utf, 0);
    assert lines[0..] == lines;
  }

  /** Whether the first line marks the file as UTF-16/32. */
  function Utf(lines: seq<string>): bool
  {
    lines != [] && IsUtfHeader(lines[0])
  }

  /** The text after the version prefix, on the line where the search found it. */
  function VersionText(lines: seq<string>): Option<string>
  {
    match VersionSearch(lines, Utf(lines))
    case None => None
    case Some((text, at, _)) => Some(text[at..])
  }

  /** The version: the in-range integer the text after the prefix starts with. */
  function ParsedVersion(lines: seq<string>): Option<int>
  {
    match VersionText(lines)
    case None => None
    case Some(text) => FromChars(text, true, Int32Min, Int32Max)
  }

  /** The lines after the one holding the version. */
  function BodyLines(lines: seq<string>): seq<string>
  {
    match VersionSearch(lines, Utf(lines))
    case None => []
    case Some((_, _, rest)) => rest
  }

  /**
   * `parse_impl` over the lines the provider hands out, with `section` the
   * section the parser was left in. No line: no beatmap. Otherwise the
   * beatmap starts empty, the first line decides the UTF-16/32 handling, the
   * version search runs from the first line, and the integer after the
   * prefix is the version; then the body loop runs on the lines after it.
   */
  function ParseLines(cfg: Config, section: Section, lines: seq<string>): Outcome<Option<Beatmap>>
    requires ValidNumerics(cfg.num)
  {
    match ParsedVersion(lines)
    case None => Done(None)
    case Some(v) =>
      match Body(cfg, State(EmptyBeatmap.(version := v), section, 0), BodyLines(lines), Utf(lines))
      case Throws => Throws
      case Done(st) => Done(Some(st.beatmap))
  }

  /**
   * No beatmap comes out exactly when there is no line, no line holds the
   * prefix, or the text after it does not start with an in-range integer.
   */
  lemma ParseLinesNone(cfg: Config, section: Section, lines: seq<string>)
    requires ValidNumerics(cfg.num)
    ensures ParseLines(cfg, section, lines) == Done(None) <==>
      || lines == []
      || VersionSearch(lines, IsUtfHeader(lines[0])).None?
      || FromChars(VersionText(lines).value, true, Int32Min, Int32Max).None?
  {
  }

  /** A beatmap that comes out carries the version written after the prefix. */
  lemma ParseLinesVersion(cfg: Config, section: Section, lines: seq<string>)
    requires ValidNumerics(cfg.num)
    ensures var r := ParseLines(cfg, section, lines);
      r.Done? && r.value.Some? ==>
        && VersionText(lines).Some?
        && FromChars(VersionText(lines).value, true, Int32Min, Int32Max) == Some(r.value.value.version)
  {
    if ParsedVersion(lines).Some? {
      var st := State(EmptyBeatmap.(version := ParsedVersion(lines).value), section, 0);
      BodyGrows(cfg, st, BodyLines(lines), Utf(lines));
    }
  }
}
