/**
 * `Beatmap_parser` (src/beatmap_parser.cpp): a line-by-line state machine
 * over its fields `beatmap_`, `section_` and `current_timingpoint_`. Each
 * handler is proved to move the fields exactly as the matching function of
 * module ParserSpec says, and `parse_impl` to return what `ParseLines`
 * computes from the lines the provider hands out.
 */
module BeatmapParser {
  import opened Wrappers
  import opened Numerics
  import opened Strings
  import opened ParseString
  import opened BeatmapTypes
  import opened BeatmapFields
  import opened Timing
  import opened HitobjectParse
  import opened SliderPath
  import opened ParserText
  import opened ParserSpec
  import opened LineSource

  /** The reverse `std::find_if` for the latest uninherited timing point. */
  method FindLastUninherited(tps: seq<Timingpoint>) returns (r: Option<nat>)
    ensures r == LastUninherited(tps)
  {
    var i := |tps|;
    while i > 0 && !tps[i - 1].uninherited
      invariant 0 <= i <= |tps|
      invariant LastUninherited(tps) == LastUninherited(tps[..i])
    {
      assert tps[..i][..i - 1] == tps[..i - 1];
      i := i - 1;
    }
    assert tps[..|tps|] == tps;
    r := if i == 0 then None else Some(i - 1);
  }

  /** The beat duration of a timing line's point, from its second value. */
  method ReadBeatDuration(tps: seq<Timingpoint>, value: real) returns (beat: int)
    ensures beat == BeatDuration(tps, value)
  {
    beat := 0;
    if value < 0.0 {
      var last := FindLastUninherited(tps);
      if last.Some? {
        beat := Trunc(0.01 * (-value) * tps[last.value].beatDuration as real);
      }
    } else {
      beat := Trunc(value * 1000.0);
    }
  }

  /** The point of a timing line (already split and left-trimmed), each value through its `parse_value`. */
  method ReadTimingpoint(num: Numerics, tps: seq<Timingpoint>, tokens: seq<string>) returns (point: Timingpoint)
    requires |tokens| >= 8
    ensures point == TimingpointOf(num, tps, tokens)
  {
    var time := ParseMs(tokens[0], 0);
    var value := num.stof(tokens[1]);
    var beat := ReadBeatDuration(tps, value);
    var meter := ParseInt(tokens[2], 0);
    var sampleSet := ParseInt(tokens[3], 0);
    var sampleIndex := ParseInt(tokens[4], 0);
    var volume := ParseInt(tokens[5], 0);
    var kiai := ParseBool(tokens[7], false);
    point := Timingpoint(time, beat, meter, sampleSet, sampleIndex, volume, !(value < 0.0), kiai);
  }

  /** One line of `seek_version_string`: the formatted line and the position past the prefix, if it holds one. */
  method VersionIn(line: string, utf: bool) returns (found: Option<(string, nat)>)
    ensures found == match Find(Formatted(line, utf), VersionPrefix)
      case None => None
      case Some(pos) => Some((Formatted(line, utf), pos + |VersionPrefix|))
  {
    var formatted := line;
    if utf {
      formatted := StripNul(formatted);
    }
    var pos := Find(formatted, VersionPrefix);
    found := if pos.Some? then Some((formatted, pos.value + |VersionPrefix|)) else None;
  }

  /** The body loop's formatting of a line: `'\0'`s stripped when the file is UTF-16/32, then trimmed. */
  method PrepareLine(line: string, utf: bool) returns (r: string)
    ensures r == Prepared(line, utf)
  {
    r := line;
    if utf {
      r := StripNul(r);
    }
    r := TrimView(r);
  }

  /**
   * `seek_version_string`: from the first line on, format each line and
   * look for the version prefix in it; `found` is the formatted line and the
   * position just past the prefix.
   */
  method SeekVersion(provider: LineProvider, first: string, utf: bool, ghost lines: seq<string>)
    returns (found: Option<(string, nat)>)
    requires provider.Valid() && lines == [first] + provider.rest
    modifies provider
    ensures provider.Valid()
    ensures found.None? <==> VersionSearch(lines, utf).None?
    ensures found.Some? ==> VersionSearch(lines, utf) == Some((found.value.0, found.value.1, provider.rest))
  {
    hide Find, Formatted;
    ghost var todo := lines;
    var line := Some(first);
    found := None;
    while line.Some?
      invariant provider.Valid()
      invariant line.Some? ==> todo == [line.value] + provider.rest
      invariant line.None? ==> todo == []
      invariant VersionSearch(lines, utf) == VersionSearch(todo, utf)
      invariant found.None?
      decreases |todo|
    {
      assert todo[0] == line.value && todo[1..] == provider.rest;
      found := VersionIn(line.value, utf);
      if found.Some? {
        return;
      }
      todo := provider.rest;
      line := provider.GetLine();
    }
  }

  class Parser {
    /** The library calls the parse goes through. */
    const num: Numerics
    /** `slider_paths`: whether slider points and distances are computed. */
    const sliderPaths: bool
    /** The iteration bound of the Bézier approximation. */
    const fuel: nat

    /** `beatmap_`. */
    var beatmap: Beatmap
    /** `section_`. */
    var section: Section
    /** `current_timingpoint_`, as an index into `beatmap.timingpoints`. */
    var cursor: nat

    function Cfg(): Config
    {
      Config(num, sliderPaths, fuel)
    }

    /** The fields as one value. */
    function Snapshot(): State
      reads this
    {
      State(beatmap, section, cursor)
    }

    /** The timing cursor is a position in the timing points or their end. */
    ghost predicate Valid()
      reads this
    {
      cursor <= |beatmap.timingpoints|
    }

    /**
     * `Beatmap_parser()`: an empty beatmap and no section. The iterator is
     * default-constructed; it is taken to equal the end of the (empty) timing points.
     */
    constructor(num: Numerics, sliderPaths: bool, fuel: nat)
      ensures this.num == num && this.sliderPaths == sliderPaths && this.fuel == fuel
      ensures beatmap == EmptyBeatmap && section == NoSection && cursor == 0 && Valid()
    {
      this.num := num;
      this.sliderPaths := sliderPaths;
      this.fuel := fuel;
      beatmap := EmptyBeatmap;
      section := NoSection;
      cursor := 0;
    }

    /**
     * `parse_general`, `parse_editor`, `parse_metadata` and
     * `parse_difficulty`: split on `:`, and with exactly two tokens look the
     * key up in the section's table.
     */
    method ParseKeyValue(table: seq<(string, Field)>, line: string)
      modifies this
      ensures beatmap == KeyValue(num, table, old(beatmap), line)
      ensures section == old(section) && cursor == old(cursor)
    {
      var tokens := Split(line, ':');
      if |tokens| != 2 {
        return;
      }
      beatmap := IfFoundParse(num, table, tokens[0], tokens[1], beatmap);
    }

    /** `parse_events`. */
    method ParseEvents(line: string)
      modifies this
      ensures beatmap == EventsStep(old(beatmap), line)
      ensures section == old(section) && cursor == old(cursor)
    {
      if StartsWith(line, BackgroundPrefix) {
        var rest := line[|BackgroundPrefix|..];
        var end := FindChar(rest, '"');
        if end.Some? {
          beatmap := beatmap.(background := rest[..end.value]);
        }
        return;
      }
      if StartsWith(line, BreakPrefix) {
        var tokens := Split(line[|BreakPrefix|..], ',');
        if |tokens| != 2 {
          return;
        }
        tokens := LtrimAll(tokens);
        var start := ParseIntValue(tokens[0]);
        var end := ParseIntValue(tokens[1]);
        beatmap := beatmap.(breaks := beatmap.breaks + [Break(start, end)]);
      }
    }

    /** `parse_timingpoints`. */
    method ParseTimingpoints(line: string)
      modifies this
      ensures Snapshot() == TimingStep(num, old(Snapshot()), line)
    {
      var tokens := Split(line, ',');
      if |tokens| < 8 {
        return;
      }
      tokens := LtrimAll(tokens);
      var point := ReadTimingpoint(num, beatmap.timingpoints, tokens);
      beatmap := beatmap.(timingpoints := beatmap.timingpoints + [point]);
      cursor := 0;
    }

    /**
     * `parse_hitobject`; `ok` is false when `sliderpath` throws, and the
     * exception leaves the beatmap as it was.
     */
    method ParseHitobject(line: string) returns (ok: bool)
      requires ValidNumerics(num) && Valid()
      modifies this
      ensures Valid() && section == old(section)
      ensures ok ==> HitobjectStep(Cfg(), old(Snapshot()), line) == Done(Snapshot())
      ensures !ok ==> HitobjectStep(Cfg(), old(Snapshot()), line) == Throws && beatmap == old(beatmap)
    {
      hide Anchored, LineRests, CurveParts;
      ok := true;
      var tokens := Split(line, ',');
      if |tokens| < 4 {
        return;
      }
      var rests := LineRests(line);
      tokens := LtrimAll(tokens);
      var kind := ParseIntValue(tokens[3]);
      if HasBit(kind, CircleMask) {
        var circle := ParseCircle(num, tokens);
        assert circle.value == CircleOf(num, tokens);
        beatmap := beatmap.(circles := beatmap.circles + [circle.value]);
      } else if HasBit(kind, SliderMask) {
        var parsed := ParseSlider(num, tokens, rests);
        assert parsed == SliderOf(num, tokens, rests);
        if parsed.None? {
          return;
        }
        var slider := parsed.value;
        ghost var timed := Timed(beatmap.timingpoints, cursor, beatmap.difficulty.sliderMultiplier, slider);
        if cursor != |beatmap.timingpoints| {
          cursor := NextTimingpoint(beatmap.timingpoints, cursor, slider.time);
          var beat := beatmap.timingpoints[cursor].beatDuration;
          slider := slider.(duration := SliderDuration(slider, beatmap.difficulty.sliderMultiplier, beat));
        }
        assert (slider, cursor) == timed;
        if sliderPaths {
          var points := SliderpathOf(num, slider.segments, fuel);
          if points.Throws? {
            return false;
          }
          var distances := PathLengthsOf(num, points.value);
          slider := slider.(points := points.value, distances := distances);
          slider := FixSliderLength(num, slider);
        }
        beatmap := beatmap.(sliders := beatmap.sliders + [slider]);
      } else if HasBit(kind, SpinnerMask) {
        var spinner := ParseSpinner(tokens);
        assert spinner == SpinnerOf(tokens);
        if spinner.Some? {
          beatmap := beatmap.(spinners := beatmap.spinners + [spinner.value]);
        }
      }
    }

    /** `parse_line`; `ok` is false when the hit-object handler throws. */
    method ParseLine(line: string) returns (ok: bool)
      requires ValidNumerics(num) && Valid()
      modifies this
      ensures Valid()
      ensures ok ==> LineStep(Cfg(), old(Snapshot()), line) == Done(Snapshot())
      ensures !ok ==> LineStep(Cfg(), old(Snapshot()), line) == Throws
    {
      ok := true;
      LineStepGrows(Cfg(), Snapshot(), line);
      if line == [] {
        return;
      }
      if StartsWith(line, "[") {
        section := SectionOf(line);
      } else if section == General {
        ParseKeyValue(GeneralTable, line);
      } else if section == Editor {
        ParseKeyValue(EditorTable, line);
      } else if section == Metadata {
        ParseKeyValue(MetadataTable, line);
      } else if section == Difficulty {
        ParseKeyValue(DifficultyTable, line);
      } else if section == Events {
        ParseEvents(line);
      } else if section == TimingPoints {
        ParseTimingpoints(line);
      } else if section == HitObjects {
        ok := ParseHitobject(line);
      }
    }

    /** The body loop of `parse_impl`: each further line formatted, trimmed and parsed. */
    method ParseBody(provider: LineProvider, utf: bool, ghost rest: seq<string>) returns (ok: bool)
      requires ValidNumerics(num) && Valid()
      requires provider.Valid() && provider.rest == rest
      modifies this, provider
      ensures Valid()
      ensures ok ==> Body(Cfg(), old(Snapshot()), rest, utf) == Done(Snapshot())
      ensures !ok ==> Body(Cfg(), old(Snapshot()), rest, utf) == Throws
    {
      ghost var goal := Body(Cfg(), Snapshot(), rest, utf);
      ghost var todo := rest;
      var line := provider.GetLine();
      while line.Some?
        invariant provider.Valid()
        invariant line.Some? ==> todo == [line.value] + provider.rest
        invariant line.None? ==> todo == []
        invariant Valid()
        invariant Body(Cfg(), Snapshot(), todo, utf) == goal
        decreases |todo|
      {
        assert todo[0] == line.value && todo[1..] == provider.rest;
        var current := PrepareLine(line.value, utf);
        ok := ParseLine(current);
        if !ok {
          return;
        }
        todo := provider.rest;
        line := provider.GetLine();
      }
      ok := true;
    }

    /**
     * `parse_impl`: `r` is `Throws` when a line's handler throws. The
     * section is not reset, so the parse starts in the section the parser
     * was left in; the cursor must still be at its initial position.
     */
    method ParseImpl(provider: LineProvider) returns (r: Outcome<Option<Beatmap>>)
      requires ValidNumerics(num) && cursor == 0 && provider.Valid()
      modifies this, provider
      ensures r == ParseLines(Cfg(), old(section), old(provider.rest))
    {
      ghost var lines := provider.rest;
      var line := provider.GetLine();
      if line.None? {
        return Done(None);
      }
      beatmap := EmptyBeatmap;
      var utf := IsUtfHeader(line.value);
      assert utf == Utf(lines);
      var found := SeekVersion(provider, line.value, utf, lines);
      if found.None? {
        return Done(None);
      }
      var (text, at) := found.value;
      var version := FromChars(text[at..], true, Int32Min, Int32Max);
      assert version == ParsedVersion(lines);
      if version.None? {
        return Done(None);
      }
      beatmap := beatmap.(version := version.value);
      var ok := ParseBody(provider, utf, provider.rest);
      r := if ok then Done(Some(beatmap)) else Throws;
    }

    /**
     * `from_string`: the lines of the text, handed out by a
     * `String_line_provider`, through `parse_impl`.
     */
    method FromString(content: string) returns (r: Outcome<Option<Beatmap>>)
      requires ValidNumerics(num) && cursor == 0
      modifies this
      ensures r == ParseLines(Cfg(), old(section), Lines(content))
    {
      var provider := new LineProvider(content);
      r := ParseImpl(provider);
    }
  }
}
