# osu_reader, modelled in Dafny

A model of the core of osu_reader, a C++ library that reads osu! files. It covers five parts:

- **Beatmap reader.** It reads `.osu` beatmap text line by line.
  - A version gate comes first: the first line holding `osu file format v` must be followed by an in-range integer.
  - `[...]` headers switch between sections.
  - The key:value sections go through fixed key tables.
  - `[Events]` gives the background and the breaks.
  - `[TimingPoints]` gives uninherited and inherited points.
  - `[HitObjects]` gives circles, sliders and spinners. A slider's duration comes from the forward-only timing cursor.
  - Files starting with a UTF-16/32 byte-order mark (section 3.2 of RFC 2781) have their `'\0'` bytes stripped.
- **Slider geometry.**
  - Curve data `K|x:y|...` becomes typed segments.
  - Each segment is flattened by the approximator of its kind:
    - linear;
    - Bézier, by work-stack flattening with De Casteljau subdivision;
    - Catmull-Rom;
    - circular arc, falling back to Bézier.
  - The pieces are laid end to end. The newer revision then drops repeated points.
  - Cumulative lengths are computed, and the path is cut or extended to the authored length.
- **Hit-object iterator.** It merges the three hit-object lists by time, with fixed tie-breaks.
- **Difficulty conversions.** AR, OD and CS conversions.
- **Replay decoding.**
  - A bounded little-endian byte cursor.
  - 19 header fields read in a fixed order, all or nothing.
  - Strings carry a presence flag and a LEB128 length, of which the reader keeps only 8 bits.
  - The decompressed frame text becomes `delta|x|y|state` records, with time rebuilt as a running sum.

**How the model is built**

- **Stateful parts are classes.** Code that changes state step by step (the parser, the line provider, the byte cursor, the replay reader, the iterator, the in-place trims, the slider-length fix, the flattening loops) is modelled as Dafny classes and methods with loops.
- **Each method is proved to compute a specification function.** The properties are proved about those functions.
- **Floating point is exact.** `float` and `double` are `real`.
- **Library calls are parameters.** `std::sqrt`, `std::atan2`, `std::acos`, `std::cos`, `std::sin`, `std::stof` and the `normal` helper are fields of a `Numerics` record passed in. `ValidNumerics` holds the only laws the proofs rely on.
- **Casts are written out.** The truncating `duration_cast` and `std::ceil` appear explicitly.
- **The older replay revision is the same model.** `src/replay_reader.h` is the older templated revision of the replay reader. It reads the same fields in the same order, with the same string, LEB128, frame-data and frame rules. The `ReplayReader` members model both revisions; the table cites `src/replay_reader.cpp`.
- **The older slider revision is the same approximators.** The approximators of the older `src/sliderpath.cpp` are the same functions as those under `src/hitobject/`. Its `sliderpath` is modelled separately (`LegacySliderpath`), because it does not drop repeated points.

Two behaviours of the code are worth knowing:

- **Byte-order marks.** Only the four UTF-16/32 byte-order marks switch on `'\0'` stripping. A UTF-8 mark does not.
- **Catmull-Rom sampling.** Each span is sampled 50 times, and every sample emits two points. A span therefore gives 100 points.

## Model

| member | source | states |
|---|---|---|
| Vec.Eq | include/osu_reader/vector2.h:7-10 | `==` holds exactly when the two points are the same point (both coordinates equal) |
| Vec.Neq | include/osu_reader/vector2.h:11-14 | `!=` is exactly the negation of equality |
| Vec.Sub | include/osu_reader/vector2.h:16-17 | subtraction is componentwise, so adding `b` back to `a - b` gives `a` |
| Vec.LengthSquared | include/osu_reader/vector2.h:21-23 | `length_squared(p)` is `dot(p, p)` and is never negative |
| Vec.ScaleDistributes | include/osu_reader/vector2.h:16-20 | scaling by `d` distributes over `+`: `d*(a+b) == d*a + d*b` |
| Vec.MidpointProperties | include/osu_reader/vector2.h:24 | `midpoint` is symmetric and `midpoint(a, a) == a` |
| Numerics.LengthNonNegative | include/osu_reader/vector2.h:22 | `length` is never negative, for any square root that maps non-negatives to non-negatives |
| Numerics.Trunc | src/beatmap_parser.cpp:250-251 | the conversion of a floating duration to integer milliseconds truncates toward zero: the result is within one of the value, on the zero side |
| Numerics.Ceil | src/hitobject/perfect_circle.cpp:73 | `std::ceil` gives the least integer not below its argument |
| Strings.StartsWith | include/osu_reader/string_stuff.h:9-12 | `starts_with(s, p)` is true exactly when `p` is a prefix of `s` (so the empty prefix always matches) |
| Strings.LtrimViewSpec | include/osu_reader/string_stuff.h:63-71 | `ltrim_view(s)` is a suffix of `s` that is empty or starts with a non-space, and every dropped character is whitespace |
| Strings.RtrimViewSpec | include/osu_reader/string_stuff.h:73-81 | `rtrim_view(s)` is a prefix of `s` that is empty or ends with a non-space, and every dropped character is whitespace |
| Strings.LtrimViewFixed | include/osu_reader/string_stuff.h:63-71 | a text with no leading whitespace is its own left trim |
| Strings.RtrimViewFixed | include/osu_reader/string_stuff.h:73-81 | a text with no trailing whitespace is its own right trim |
| Strings.TrimViewIdempotent | include/osu_reader/string_stuff.h:83-86 | trimming an already trimmed view changes nothing |
| Strings.TrimCommutes | include/osu_reader/string_stuff.h:34-40 | left-trimming first and then right-trimming (what in-place `trim` does) gives `trim_view`, which right-trims first |
| Strings.AllSpaceTrimsToEmpty | include/osu_reader/string_stuff.h:63-81 | a text made only of whitespace trims to the empty text from either side |
| Strings.RtrimDropFront | include/osu_reader/string_stuff.h:73-81 | when some non-space remains, a leading blank stays in front of the right trim of the rest |
| Strings.StdString.constructor | include/osu_reader/string_stuff.h:16 | the string passed by reference holds the given text |
| Strings.Ltrim | include/osu_reader/string_stuff.h:16-22 | in-place `ltrim` leaves the argument equal to `ltrim_view` of its old text and returns that same string |
| Strings.Rtrim | include/osu_reader/string_stuff.h:24-32 | in-place `rtrim` leaves the argument equal to `rtrim_view` of its old text and returns that same string |
| Strings.Trim | include/osu_reader/string_stuff.h:34-40 | in-place `trim` leaves the argument equal to `trim_view` of its old text and returns that same string |
| Strings.LtrimCopy | include/osu_reader/string_stuff.h:42-47 | `ltrim_copy` returns `ltrim_view` of the text; the caller's text is a value and is untouched |
| Strings.RtrimCopy | include/osu_reader/string_stuff.h:49-54 | `rtrim_copy` returns `rtrim_view` of the text |
| Strings.TrimCopy | include/osu_reader/string_stuff.h:56-61 | `trim_copy` returns `trim_view` of the text |
| Strings.LtrimViewAt | include/osu_reader/string_stuff.h:65-70 | the position where `find_if` finds the first non-space fixes the left trim: it is the rest of the text from there |
| Strings.RtrimViewAt | include/osu_reader/string_stuff.h:75-80 | the position where the reverse `find_if` stops fixes the right trim: the text up to there |
| Strings.RunEnd | src/string_stuff.cpp:15-20 | a run starting at `start` ends at the next delimiter, or at the end of the text |
| Strings.RunEndFree | src/string_stuff.cpp:15-20 | no character of a run is the delimiter |
| Strings.RunEndIs | src/string_stuff.cpp:15-20 | the first delimiter after `start` (or the end) is where the run ends |
| Strings.TokensConcat | src/string_stuff.cpp:3-23 | concatenating the tokens of `split` gives the text with every delimiter removed |
| Strings.TokensFromConcat | src/string_stuff.cpp:3-23 | the same, for the tokens of any suffix of the text |
| Strings.ConcatAppend | src/string_stuff.cpp:11 | concatenation of token lists distributes over appending lists |
| Strings.WithoutFromRun | src/string_stuff.cpp:15-20 | a delimiter-free run survives whole when the delimiters are removed |
| Strings.TokensWellFormed | src/string_stuff.cpp:9-21 | every token of `split` is non-empty and holds no delimiter |
| Strings.TokensFromWellFormed | src/string_stuff.cpp:9-21 | the same, for the tokens of any suffix of the text |
| Strings.TokensFree | src/string_stuff.cpp:21 | a text with no delimiter splits into exactly `[s]`, or into nothing when it is empty |
| Strings.TokensOfPair | src/string_stuff.cpp:3-23 | two non-empty delimiter-free texts joined by one delimiter split back into exactly those two |
| Strings.OnlyDelimitersHasNoTokens | src/string_stuff.cpp:9-22 | an empty text, or one made only of delimiters, splits into an empty list |
| Strings.OnlyDelimitersFrom | src/string_stuff.cpp:9-22 | the same, from any start position |
| Strings.RunEndAtMost | src/string_stuff.cpp:16-18 | a delimiter at `k` closes every run that begins at or before `k` no later than `k` |
| Strings.Split | src/string_stuff.cpp:3-23 | the two-iterator loop of `split` returns exactly the maximal non-empty delimiter-free runs of the text, left to right |
| Strings.TokenClosed | src/string_stuff.cpp:9-13 | `add_if_not_zero` at the end of a non-empty run emits that run as the next token |
| Strings.EmptyRunClosed | src/string_stuff.cpp:9-13 | `add_if_not_zero` at the end of an empty run emits nothing |
| Strings.LtrimView | include/osu_reader/string_stuff.h:63-71 | the left-trimmed view is never longer than the text |
| Strings.TokenStartsLength | src/string_stuff.cpp:3-23 | there is one start position per token of `split` |
| Strings.TokenStartAt | src/string_stuff.cpp:9-21 | each token of `split` is the text at its start position, `s.data() + (it_start - s.begin())` |
| Strings.TokenRests | src/string_stuff.cpp:3-23 | each token of `split`, as a view into a larger text, is followed there by the rest of that text: the token starts its piece, and the piece is an end piece of the text |
| Strings.LtrimRests | include/osu_reader/string_stuff.h:63-71 | left-trimming a view moves its start forward and keeps the text after it: the trimmed token starts the remaining piece, an end piece of the old one |
| Strings.LtrimAll | src/beatmap_parser.cpp:203 | `std::transform(..., ltrim_view)` left-trims every token in place, keeping their number |
| ParseString.DigitChar | src/parse_string.h:15 | the character spelling a digit value is a digit with that value |
| ParseString.DigitRun | src/parse_string.h:15 | the digit run `from_chars` consumes is no longer than the token |
| ParseString.DigitRunSpec | src/parse_string.h:15 | the run is all decimal digits and is followed by a non-digit or by the end of the token |
| ParseString.Digits | src/parse_string.h:15 | the decimal spelling of a number is a non-empty run of digits |
| ParseString.FromChars | src/parse_string.h:12-16 | an integer `from_chars` either fails or yields a value inside the destination type's range |
| ParseString.MagnitudeOfDigits | src/parse_string.h:15 | digits followed by a non-digit read as the value of exactly those digits |
| ParseString.DigitsRoundTrip | src/parse_string.h:15 | reading back the decimal spelling of `n` gives `n` |
| ParseString.DigitRunStopsAt | src/parse_string.h:15 | the digit run stops exactly where the digits end |
| ParseString.FromCharsDecimal | src/parse_string.h:12-16 | the integer parse inverts decimal formatting: the spelling of any in-range value, followed by a non-digit, parses back to that value (the unsigned parse too, for non-negative values) |
| ParseString.FromCharsDecimalNegative | src/parse_string.h:15 | the same for negative values, through the leading `-` |
| ParseString.FromCharsDecimalNatural | src/parse_string.h:15 | the same for non-negative values, signed or unsigned |
| ParseString.FromCharsDigits | src/parse_string.h:15 | a digit run in range parses to its value whatever non-digit follows |
| ParseString.FromCharsNegative | src/parse_string.h:15 | `-` and a digit run in range parse to the negated value |
| ParseString.FromCharsMinus | src/parse_string.h:15 | a signed parse of `-` and a magnitude in range gives the negated magnitude |
| ParseString.FromCharsNeedsDigit | src/parse_string.h:12-16 | a token that does not start with a digit (or, for a signed type, `-`) fails |
| ParseString.FromCharsUnsignedRejectsMinus | src/parse_string.h:12-16 | an unsigned parse never accepts a minus sign |
| ParseString.ParseInt | src/parse_string.h:12-16 | `parse_value(s, int&)` writes the parsed value on success and leaves the field unchanged on failure (no digits, or out of the 32-bit range) |
| ParseString.ParseUInt8 | src/parse_string.h:12-16 | `parse_value(s, uint8_t&)` accepts only digits in 0..255 and otherwise leaves the field unchanged |
| ParseString.ParseBool | src/parse_string.h:32-40 | a first character `1` gives true, `0` gives false, and anything else (or an empty token) leaves the field unchanged |
| ParseString.ParseMs | src/parse_string.h:42-48 | the milliseconds overload parses into a local that starts at 0, so a failed parse writes 0 rather than keeping the old value |
| ParseString.ParseGamemode | src/parse_string.h:50-56 | the game-mode overload assigns the field from itself, so the field never changes whatever the token |
| ParseString.ParseText | src/parse_string.h:58-70 | the string and path overloads copy the token text verbatim |
| ParseString.ParseStringList | src/parse_string.h:72-80 | the string-list overload keeps the existing elements and appends one non-empty, space-free element per space-separated token |
| ParseString.ParseListedMs | src/parse_string.h:87-92 | one bookmark token is left-trimmed and parsed as an `int`, 0 on failure |
| ParseString.ParseMsList | src/parse_string.h:82-93 | the milliseconds-list overload keeps the existing elements and appends exactly one value per space-separated token, each the token's left-trimmed `int` parse or 0 |
| ParseString.ParseIntValue | src/parse_string.h:95-101 | `parse_value<int>(s)` starts from a value-initialised `int`, so a failed parse returns 0 |
| BeatmapFields.GetPut | src/beatmap_parser.cpp:81-84 | writing a member through its member pointer and reading it back gives the value written |
| BeatmapFields.GetPutGeneral | src/beatmap_parser.cpp:90-106 | the same for each `[General]` member |
| BeatmapFields.GetPutEditor | src/beatmap_parser.cpp:116-122 | the same for each `[Editor]` member |
| BeatmapFields.GetPutMetadata | src/beatmap_parser.cpp:132-143 | the same for each `[Metadata]` member |
| BeatmapFields.GetPutDifficulty | src/beatmap_parser.cpp:153-160 | the same for each `[Difficulty]` member |
| BeatmapFields.PutGet | src/beatmap_parser.cpp:81-84 | writing a member's own value back changes nothing |
| BeatmapFields.PutGetGeneral | src/beatmap_parser.cpp:90-106 | the same for each `[General]` member |
| BeatmapFields.PutGetEditor | src/beatmap_parser.cpp:116-122 | the same for each `[Editor]` member |
| BeatmapFields.PutGetMetadata | src/beatmap_parser.cpp:132-143 | the same for each `[Metadata]` member |
| BeatmapFields.PutGetDifficulty | src/beatmap_parser.cpp:153-160 | the same for each `[Difficulty]` member |
| BeatmapFields.PutOther | src/beatmap_parser.cpp:81-84 | writing one member leaves every other table member as it was |
| BeatmapFields.PutOtherGeneral | src/beatmap_parser.cpp:90-106 | the same within `[General]` |
| BeatmapFields.PutOtherEditor | src/beatmap_parser.cpp:116-122 | the same within `[Editor]` |
| BeatmapFields.PutOtherMetadata | src/beatmap_parser.cpp:132-143 | the same within `[Metadata]` |
| BeatmapFields.PutOtherDifficulty | src/beatmap_parser.cpp:153-160 | the same within `[Difficulty]` |
| BeatmapFields.PutKeepsSections | src/beatmap_parser.cpp:81-84 | no table member is the version, background, breaks, timing points or hit objects, so writing one keeps those |
| BeatmapFields.MsTokens | src/parse_string.h:82-93 | the bookmark list conversion yields one value per space-separated token |
| BeatmapFields.CoerceSameType | src/beatmap_parser.cpp:81-84 | the overload chosen by `std::visit` produces a value of the member's own type |
| BeatmapFields.CoerceEffects | src/parse_string.h:42-93 | per member type: the game mode never changes; list members keep their elements and only grow at the end by the tokens; a millisecond member that does not parse becomes 0; a text member takes the text verbatim |
| BeatmapFields.ParseValue | src/beatmap_parser.cpp:81-84 | the `std::visit` dispatch calls exactly the `parse_value` overload of the member's type |
| BeatmapFields.LookupSpec | src/beatmap_parser.cpp:76-80 | the table `find_if` finds nothing exactly when no entry has the key, and otherwise the first entry that has it |
| BeatmapFields.IfFoundParse | src/beatmap_parser.cpp:71-86 | `if_found_parse` converts the left-trimmed value into the member of the left-trimmed key, and changes nothing when the key is not in the table |
| BeatmapFields.KeyValueChangesOneMember | src/beatmap_parser.cpp:108-111 | a key-value line changes at most the member its key names; a line that does not split on `:` into exactly two tokens changes nothing |
| BeatmapFields.KeyValueSets | src/beatmap_parser.cpp:108-111 | a line whose key is found converts its left-trimmed value into that key's member |
| BeatmapFields.KeyValueKeepsSections | src/beatmap_parser.cpp:108-111 | a key-value line never touches the background, breaks, timing points or hit objects |
| BeatmapFields.GeneralKeepsMode | src/beatmap_parser.cpp:97 | a `Mode` line (indeed any `[General]` line) never changes the game mode |
| BeatmapFields.SliderTickRateKeyIgnored | src/beatmap_parser.cpp:159 | the table key has a trailing space that a left trim cannot produce, so a `SliderTickRate` line leaves the beatmap unchanged |
| BeatmapFields.NoTickRateKey | src/beatmap_parser.cpp:153-160 | no `[Difficulty]` entry has the key `SliderTickRate` without the trailing space |
| BeatmapFields.LookupFirst | src/beatmap_parser.cpp:76-80 | an entry whose key no earlier entry has is the one its key finds |
| BeatmapFields.DistinctKeysFound | src/beatmap_parser.cpp:76-80 | in a table of distinct keys every key finds its own entry, so no entry is shadowed |
| BeatmapFields.GeneralKeysDistinct | src/beatmap_parser.cpp:90-106 | the fifteen `[General]` keys are distinct |
| BeatmapFields.EditorKeysDistinct | src/beatmap_parser.cpp:116-122 | the five `[Editor]` keys are distinct |
| BeatmapFields.MetadataKeysDistinct | src/beatmap_parser.cpp:132-143 | the ten `[Metadata]` keys are distinct |
| BeatmapFields.DifficultyKeysDistinct | src/beatmap_parser.cpp:153-160 | the six `[Difficulty]` keys are distinct |
| Timing.FindLater | src/timingpoints_helper.h:10-14 | `find_if_not` returns a position between `first` and the end |
| Timing.FindLaterSpec | src/timingpoints_helper.h:10-14 | `find_if_not` passes only points at or before `t` and stops at the first point later than `t` (or at the end) |
| Timing.NextTimingpoint | src/timingpoints_helper.h:7-17 | the cursor never moves backwards; it is the end exactly when `first` is the end (so an empty range returns `first`); when the first point is later than `t` it stays at `first` |
| Timing.NextTimingpointLeadingRun | src/timingpoints_helper.h:10-15 | when the first point is at or before `t`, the result is the last point of the leading run at or before `t`: the following point, if any, is later than `t` |
| Timing.NextTimingpointAllEarlier | src/timingpoints_helper.h:10-15 | when every point is at or before `t`, the result is the last point and never the end |
| BeatmapUtil.ArToMs | include/osu_reader/beatmap_util.h:4-8 | both pieces of `ar_to_ms` are lines through 1200 ms at AR 5, falling 150 ms per step above it and 120 ms per step below it |
| BeatmapUtil.ArToMsStrictlyDecreasing | include/osu_reader/beatmap_util.h:4-8 | a higher approach rate always gives a shorter approach time |
| BeatmapUtil.ArToMsSamples | include/osu_reader/beatmap_util.h:4-8 | AR 0, 1, 5, 10 and 11 give 1800, 1680, 1200, 450 and 300 ms |
| BeatmapUtil.CsToOsupixel | include/osu_reader/beatmap_util.h:10-13 | circle size 5 has radius 32 osu!pixels |
| BeatmapUtil.CsToOsupixelDecreasing | include/osu_reader/beatmap_util.h:10-13 | a larger circle size gives a smaller radius |
| BeatmapUtil.OdWindowsOrdered | include/osu_reader/beatmap_util.h:15-28 | for every OD below 30 (so on the whole 0..10 scale) the 300 window is narrower than the 100 window, which is narrower than the 50 window |
| BeatmapUtil.OdWindowsDecreasing | include/osu_reader/beatmap_util.h:15-28 | each hit window narrows as OD grows |
| HitobjectParse.ParseCircle | src/parse_hitobject.cpp:4-20 | `parse_circle` always succeeds, with x and y read from tokens 0 and 1 and the time from token 2 (0 when it does not parse) |
| HitobjectParse.ParseSpinner | src/parse_hitobject.cpp:106-121 | `parse_spinner` fails exactly when there are fewer than 6 tokens; otherwise start is token 2 and end is token 5, each 0 when it does not parse |
| HitobjectParse.CurveParts | src/parse_hitobject.cpp:48-83 | each left-trimmed `\|` part of the curve token goes with the text of the line from the part's first character on: that text starts with the part and is an end piece of the line, which is where `std::stof(&it->front(), ...)` reads from |
| HitobjectParse.SegmentStep | src/parse_hitobject.cpp:68-101 | one part of the curve loop, whose coordinates are read from the line starting at the part, never removes a segment and leaves at least one |
| HitobjectParse.SegmentsOf | src/parse_hitobject.cpp:68-102 | the curve loop over any number of tokens never removes a segment and leaves at least one |
| HitobjectParse.ParseSlider | src/parse_hitobject.cpp:21-105 | `parse_slider` fails exactly when there are fewer than 8 tokens, the curve token splits on `\|` into fewer than 2 parts, or its first part does not begin with L, P, B or C; otherwise time, repeat and length come from tokens 2, 6 and 7, the slider's kind and the first segment's kind are the curve's first character, the first segment starts at (x, y), the other parts go through the segment builder with the line text that starts at each of them, and duration, points and distances keep their defaults |
| HitobjectParse.BuildSegments | src/parse_hitobject.cpp:63-102 | the token loop builds exactly the segments of the builder run over every part after the first |
| HitobjectParse.SegmentsOfSnoc | src/parse_hitobject.cpp:68 | one more loop iteration is one more builder step |
| HitobjectParse.AddCurveToken | src/parse_hitobject.cpp:69-101 | one iteration's `emplace_back`/`pop_back`/`push_back` on the segments: a one-character part opens an empty segment of that letter (unchecked); a point equal to the last point of the current segment moves that point into a new segment of the same kind; any other point is appended to the current segment; the point is read from the line text that starts at the part, not from the part alone |
| HitobjectParse.PointCountSnoc | src/parse_hitobject.cpp:101 | a segment appended adds its points to the total |
| HitobjectParse.SegmentStepCounts | src/parse_hitobject.cpp:69-101 | each part adds exactly one segment or one point overall: segments plus points grow by one |
| HitobjectParse.SegmentsOfCounts | src/parse_hitobject.cpp:63-102 | segments plus points equal the start's count plus the number of parts, so segments = 1 + one-letter parts + duplicates and points = 1 + coordinate parts − duplicates; a segment may be left empty |
| HitobjectParse.SegmentsOfAtLeast | src/parse_hitobject.cpp:69-73 | there is at least one segment per one-character part, on top of the first |
| HitobjectParse.SegmentStepNoRepeats | src/parse_hitobject.cpp:86-101 | a step never puts a point right after an equal one within a segment, and keeps the first segment's kind |
| HitobjectParse.SegmentsOfNoRepeats | src/parse_hitobject.cpp:63-102 | the built segments never hold two equal points in a row, and the first segment keeps the curve's kind |
| Bezier.IsFlatEnough | src/hitobject/bezier.cpp:41-49 | `bezier_is_flat_enough` is true exactly when every interior second difference `p[i-1] − 2p[i] + p[i+1]` has squared length at most 0.25 |
| Bezier.ShortIsFlat | src/hitobject/bezier.cpp:44 | a polygon of two or fewer points has no interior point and is always flat |
| Bezier.MidpointPass | src/hitobject/bezier.cpp:63-65 | one pass of the midpoint loop keeps the buffer's size |
| Bezier.MidpointPassKeeps | src/hitobject/bezier.cpp:63-65 | a pass over the first `k` entries leaves the entries from `k` on untouched |
| Bezier.Zeros | src/hitobject/bezier.cpp:56 | `std::vector<Vector2> l(count)` has `count` entries |
| Bezier.SubdivideFrom | src/hitobject/bezier.cpp:59-66 | the remaining passes of `bezier_subdivide` keep both halves at the parent's size |
| Bezier.SubdivideFromKeeps | src/hitobject/bezier.cpp:60-61 | entries of `l` and `r` already recorded are never overwritten by later passes |
| Bezier.SubdivideFromMeets | src/hitobject/bezier.cpp:59-66 | the last pass records the same point at the end of the left half and at the start of the right half |
| Bezier.HalvesShape | src/hitobject/bezier.cpp:53-68 | subdividing `n` points gives two `n`-point halves with `l[0] = p[0]`, `r[n-1] = p[n-1]` and `l[n-1] == r[0]` |
| Bezier.Subdivide | src/hitobject/bezier.cpp:53-68 | the nested in-place loops over the copied buffer compute exactly the two halves of the subdivision |
| Bezier.MidpointPassInPlace | src/hitobject/bezier.cpp:63-65 | the inner loop replaces each of the first `k` entries by the midpoint of it and its right neighbour, in place |
| Bezier.Interior | src/hitobject/bezier.cpp:79-82 | the interior loop contributes one point per interior control point |
| Bezier.Joined | src/hitobject/bezier.cpp:74-75 | the halves laid end to end share their meeting point: `2n − 1` points |
| Bezier.EmittedShape | src/hitobject/bezier.cpp:70-83 | `bezier_approximate` on `n ≥ 1` points appends `max(1, n − 1)` points, the first being `points[0]` |
| Bezier.Approximate | src/hitobject/bezier.cpp:70-83 | the output loop emits `points[0]` and then the smoothed point `0.25(l[2i−1] + 2l[2i] + l[2i+1])` for each interior index |
| Bezier.Step | src/hitobject/bezier.cpp:22-34 | one iteration of the work loop keeps every polygon on the stack at the control polygon's size |
| Bezier.ApproximateBezier | src/hitobject/bezier.cpp:11-39 | no control points give an empty path; otherwise the path is non-empty and ends with the last control point |
| Bezier.TwoPointBezier | src/hitobject/bezier.cpp:15-37 | a two-point control polygon flattens to exactly its two points |
| Bezier.FlatBezier | src/hitobject/bezier.cpp:21-37 | an already flat control polygon is emitted once and closed with its last control point |
| Bezier.RightHalfFirst | src/hitobject/bezier.cpp:31-34 | after a split the right half is pushed last, so when both halves are flat the right half's points come out before the left half's |
| Bezier.ApproximateBezierLoop | src/hitobject/bezier.cpp:11-39 | the stack loop of `approximate_bezier`, cut off after `fuel` iterations, computes `ApproximateBezier` |
| Bezier.WorkStep | src/hitobject/bezier.cpp:22-34 | one iteration pops the top polygon, then emits it when flat or pushes its left and then its right half |
| Catmull.FindPointEnds | src/hitobject/catmull.cpp:8-16 | `catmull_find_point` gives `v2` at `t = 0` and `v3` at `t = 1` |
| Catmull.SpanControls | src/hitobject/catmull.cpp:25-28 | span `i` uses `v2 = p[i]` and `v3 = p[i+1]` (the mirrored fallback for `v3` is never taken), `v1 = p[i−1]` or `p[0]` on the first span, and `v4 = p[i+2]` or `2·v3 − v2` on the last span |
| Catmull.SpanPoints | src/hitobject/catmull.cpp:30-33 | each sample of a span emits two points |
| Catmull.Spans | src/hitobject/catmull.cpp:24-34 | each span emits 100 points |
| Catmull.ApproximateCatmull | src/hitobject/catmull.cpp:18-36 | an empty control list throws (the `reserve` size wraps around); otherwise the output has exactly `100 × (n − 1)` points |
| Catmull.SpanPointsAt | src/hitobject/catmull.cpp:30-33 | sample `c` of a span sits at points `2c` (parameter `c/50`) and `2c + 1` (parameter `(c+1)/50`) |
| Catmull.SpansAt | src/hitobject/catmull.cpp:24-34 | span `j` occupies output points `100j` to `100j + 99` |
| Catmull.SpanEnds | src/hitobject/catmull.cpp:24-34 | span `j` of the output starts at control point `j` and ends at control point `j + 1`, and outputs `100j + 2c + 1` and `100j + 2c + 2` are equal |
| Catmull.ApproximateCatmullLoop | src/hitobject/catmull.cpp:18-36 | the span loop with its inner sampling loop computes `ApproximateCatmull` |
| PerfectCircle.DenominatorIsCross | src/hitobject/perfect_circle.cpp:23-26 | the circumcentre denominator `d` is −2 times the cross product the degeneracy test looks at, so past that test `d` is never 0 |
| PerfectCircle.WindSpec | src/hitobject/perfect_circle.cpp:41-42 | after the winding loop `theta_end ≥ theta_start`, unchanged when it already was, and otherwise less than one turn past the start, so the range starts out non-negative |
| PerfectCircle.ArcShape | src/hitobject/perfect_circle.cpp:14-56 | the properties are valid exactly for three control points whose cross product exceeds 1e-3 in size (otherwise the default-constructed invalid value); when valid the direction is −1, with the range turned into `2π − range`, exactly when `dot(ortho(c − a), b − a) < 0`, and +1 with a non-negative range otherwise |
| PerfectCircle.CircularPropertiesLoop | src/hitobject/perfect_circle.cpp:14-56 | the statement form of `circular_properties`, with its winding loop, computes `CircularProperties` |
| PerfectCircle.PointCount | src/hitobject/perfect_circle.cpp:71-73 | the sample count is at least 2, and exactly 2 when `2·radius ≤ 0.1` |
| PerfectCircle.Samples | src/hitobject/perfect_circle.cpp:76-80 | the sampling loop emits one point per iteration |
| PerfectCircle.SamplesAt | src/hitobject/perfect_circle.cpp:76-80 | sample `k` is the point of the circle at angle `theta_start + direction·(k/(count−1))·theta_range` |
| PerfectCircle.PerfectFallsBack | src/hitobject/perfect_circle.cpp:14-63 | fewer or more than 3 control points, or a nearly collinear triple, gives `approximate_bezier` of the control points |
| PerfectCircle.PerfectSamples | src/hitobject/perfect_circle.cpp:58-86 | a valid arc yields its samples and never the empty-output fallback: at least two, exactly two for a tiny circle, the first at `theta_start` and the last at `theta_start + direction·theta_range` |
| PerfectCircle.SampleEnds | src/hitobject/perfect_circle.cpp:76-80 | the first sample is at angle `theta_start` and the last at `theta_start + direction·theta_range` |
| PerfectCircle.ApproximatePerfectLoop | src/hitobject/perfect_circle.cpp:58-86 | `approximate_perfect` with its sampling loop and its two Bézier fallbacks computes `ApproximatePerfect` |
| PerfectCircle.SampleArc | src/hitobject/perfect_circle.cpp:75-80 | the sampling loop emits exactly the `point_count` samples of the arc |
| SliderPath.SegmentPoints | src/hitobject/sliderpath.cpp:20-33 | a segment's piece comes from the approximator of its kind; a linear segment and a kind the switch does not name contribute their raw points; only a Catmull segment without points throws |
| SliderPath.ConcatenatedThrows | src/hitobject/sliderpath.cpp:19-36 | building the path throws exactly when some segment is a Catmull segment without points |
| SliderPath.ConcatenatedAppends | src/hitobject/sliderpath.cpp:35 | without a throw, the piece of segment `k` is inserted right after the pieces of the segments before it |
| SliderPath.Unique | src/hitobject/sliderpath.cpp:39 | `std::unique` never lengthens the path and keeps its first and last points |
| SliderPath.UniqueNoAdjacent | src/hitobject/sliderpath.cpp:39 | after line 39 no two adjacent points are equal |
| SliderPath.UniqueFixpoint | src/hitobject/sliderpath.cpp:39 | a path with no adjacent repeats is left as it is |
| SliderPath.UniqueIdempotent | src/hitobject/sliderpath.cpp:39 | removing repeats twice is the same as once |
| SliderPath.UniqueSameMembers | src/hitobject/sliderpath.cpp:39 | every removed point equalled a kept one: the same points occur before and after |
| SliderPath.UniqueStep | src/hitobject/sliderpath.cpp:39 | one more point is kept exactly when it differs from its predecessor |
| SliderPath.UniqueInPlace | src/hitobject/sliderpath.cpp:39 | `std::unique` on the path's storage leaves the repeat-free path in its first `n` slots and returns `n` |
| SliderPath.KeepIfNew | src/hitobject/sliderpath.cpp:39 | one step of `std::unique`: the next point is copied after the last kept point when it differs from it |
| SliderPath.RevisionsAgree | src/hitobject/sliderpath.cpp:15-50 | the two revisions of `sliderpath` throw on the same slider (exactly when a Catmull segment has no points); otherwise the newer one is the older one with adjacent repeats removed and has none left |
| SliderPath.SegmentPointsOf | src/hitobject/sliderpath.cpp:20-33 | the `switch` on the segment kind computes `SegmentPoints` |
| SliderPath.ConcatenateSegments | src/hitobject/sliderpath.cpp:19-36 | the segment loop inserts every piece at the end of the path, in segment order, or throws at the first Catmull segment without points |
| SliderPath.SliderpathOf | src/hitobject/sliderpath.cpp:15-40 | the newer `sliderpath` (up to the direction-collapse loop) computes the concatenated pieces with adjacent repeats removed |
| SliderPath.LegacySliderpathOf | src/sliderpath.cpp:203-226 | the older `sliderpath` computes the concatenated pieces in segment order, with no repeat removal |
| SliderPath.Distances | src/hitobject/sliderpath.cpp:54-61 | the running total has one entry per point considered, and a lone entry for fewer than two points |
| SliderPath.DistancesSpec | src/hitobject/sliderpath.cpp:54-61 | the distances start at 0, each adds the length of its step onto the previous one, and they never decrease |
| SliderPath.PathLengthsShape | src/hitobject/sliderpath.cpp:52-64 | `pathlengths` has `max(1, \|points\|)` entries, starts at 0, satisfies `d[i] = d[i−1] + length(p[i] − p[i−1])` and never decreases |
| SliderPath.PathLengthsOf | src/hitobject/sliderpath.cpp:52-64 | the accumulator loop of `pathlengths` computes `PathLengths` |
| SliderPath.Shrunk | src/hitobject/sliderpath.cpp:72-75 | the popping loop keeps points and distances in step, keeps at least one, and never adds any |
| SliderPath.ShrunkSpec | src/hitobject/sliderpath.cpp:72-75 | the popping loop keeps a prefix of the points with their distances, stops with the next-to-last distance below the length, and whenever it popped something the last distance still reaches the length |
| SliderPath.ShrunkStopsAt | src/hitobject/sliderpath.cpp:72-75 | with non-decreasing distances, popping stops exactly at the first point whose distance reaches the length |
| SliderPath.Trimmed | src/hitobject/sliderpath.cpp:71-84 | trimming keeps points and distances in step and keeps at least one |
| SliderPath.Lengthened | src/hitobject/sliderpath.cpp:85-90 | lengthening keeps points and distances in step and keeps at least one |
| SliderPath.FixNoOp | src/hitobject/sliderpath.cpp:68-69 | `fix_slider_length` changes nothing when there are no distances or not one distance per point |
| SliderPath.TrimmedSpec | src/hitobject/sliderpath.cpp:71-84 | trimming changes nothing unless the path overshoots; it keeps all points but the last from the original with their distances, never adds a point, ends exactly at the length when two points remain, and keeps distances non-decreasing |
| SliderPath.LengthenedSpec | src/hitobject/sliderpath.cpp:85-90 | lengthening keeps every point and adds at most one, whose distance is exactly the length, only when the path fell short; distances stay non-decreasing |
| SliderPath.FixShape | src/hitobject/sliderpath.cpp:66-91 | fitting keeps one distance per point and every other field; all points but the last are kept from the original, at most one point is added, the last distance equals the authored length whenever at least two points remain, and non-decreasing distances stay non-decreasing |
| SliderPath.FixExactHit | src/hitobject/sliderpath.cpp:71-84 | when the path overshoots and a point lands exactly on the length, the path is cut just after that point and no point is added |
| SliderPath.FixSliderLength | src/hitobject/sliderpath.cpp:66-91 | the in-place pops and pushes of `fix_slider_length` compute `FixedLength` |
| SliderPath.Trim | src/hitobject/sliderpath.cpp:71-84 | the popping loop and the interpolation within the last segment compute `Trimmed` |
| SliderPath.Lengthen | src/hitobject/sliderpath.cpp:85-90 | lengthening the last segment computes `Lengthened` |
| HitobjectIterator.Pick | include/osu_reader/hitobject_iterator.h:21-36 | `next()` picks nothing exactly when all three cursors are at their ends |
| HitobjectIterator.MergeLength | include/osu_reader/hitobject_iterator.h:16-36 | the objects still to come are exactly as many as remain under the three cursors |
| HitobjectIterator.PickIsEarliest | include/osu_reader/hitobject_iterator.h:23-34 | the object handed out is no later than any object under the cursors: circles win ties against sliders and spinners, sliders against spinners |
| HitobjectIterator.MergeFrom | include/osu_reader/hitobject_iterator.h:21-36 | with each list in time order, when every head is at or after `b`, so is everything still to come |
| HitobjectIterator.MergeSorted | include/osu_reader/hitobject_iterator.h:21-36 | with each list in time order, the merged sequence never goes back in time |
| HitobjectIterator.MergeKeepsOrder | include/osu_reader/hitobject_iterator.h:21-36 | each kind comes out in its own list order, from its cursor to its end |
| HitobjectIterator.MergeCircles | include/osu_reader/hitobject_iterator.h:23-26 | the circles come out in list order |
| HitobjectIterator.MergeSliders | include/osu_reader/hitobject_iterator.h:27-30 | the sliders come out in list order |
| HitobjectIterator.MergeSpinners | include/osu_reader/hitobject_iterator.h:31-34 | the spinners come out in list order |
| HitobjectIterator.Iterator.constructor | include/osu_reader/hitobject_iterator.h:9-14 | every cursor starts at the beginning of its list of the beatmap, and the callback has not been called |
| HitobjectIterator.Iterator.Next | include/osu_reader/hitobject_iterator.h:21-36 | `next()` returns false exactly when all cursors are at their ends, and then changes nothing; otherwise it calls the callback once with the picked object and advances exactly that cursor by one |
| HitobjectIterator.Iterator.All | include/osu_reader/hitobject_iterator.h:16-19 | `all()` leaves every cursor at its end, having called the callback with every remaining object in merge order |
| HitobjectIterator.AllFromStart | include/osu_reader/hitobject_iterator.h:9-19 | on a fresh iterator `all()` calls the callback exactly \|circles\| + \|sliders\| + \|spinners\| times, each kind in its own order, and in time order when every list is |
| LineSource.FindNewline | src/beatmap_parser.cpp:46 | `content.find('\n', at)` finds a newline at or after `at` |
| LineSource.FindNewlineFirst | src/beatmap_parser.cpp:46 | the newline found is the first one after `at`: none lies before it (or before the end when none is found) |
| LineSource.LineEnd | src/beatmap_parser.cpp:47 | the next position lies just past the newline or at the end of the text, and always past the line's start |
| LineSource.LinesFromConcat | src/beatmap_parser.cpp:40-50 | the lines handed out from any position, joined, give back the rest of the text |
| LineSource.LinesConcat | src/beatmap_parser.cpp:37-55 | the lines of the whole text, joined, give back the text |
| LineSource.LinesFromShaped | src/beatmap_parser.cpp:40-50 | every line handed out is non-empty with a newline at most at its end, and every line but the last ends with its newline |
| LineSource.LineProvider.constructor | src/beatmap_parser.cpp:39-54 | the provider starts at position 0 with every line of the text still to hand out |
| LineSource.LineProvider.GetLine | src/beatmap_parser.cpp:40-50 | `get_line` gives nothing exactly when no line is left; otherwise it gives the next line, up to and including its newline, and moves past it |
| ParserText.SectionOf | src/beatmap_parser.cpp:373-384 | `parse_section` gives a section only for its exact header line |
| ParserText.SectionOfHeader | src/beatmap_parser.cpp:373-384 | each of the eight sections is recognised from its own header line and from no other line |
| ParserText.AnyMatchFrom | src/beatmap_parser.cpp:283-290 | the `find_if` over the marks is true exactly when some mark from position `i` on matches the header |
| ParserText.UtfHeaderIff | src/beatmap_parser.cpp:267-291 | `maybe_parse_utfheader` is true exactly when the line starts with `00 00 FE FF`, `FF FE 00 00`, `FE FF` or `FF FE` |
| ParserText.RemoveNul | src/beatmap_parser.cpp:325-328 | stripping never lengthens the line |
| ParserText.RemoveNulSpec | src/beatmap_parser.cpp:325-328 | no `'\0'` is left after stripping, and a line without one is unchanged |
| ParserText.RemoveNulAppend | src/beatmap_parser.cpp:325-328 | stripping works piece by piece: stripping a joined text is joining the stripped pieces |
| ParserText.RemoveNulKeepsOthers | src/beatmap_parser.cpp:325-328 | every character other than `'\0'` is kept as often as it occurs |
| ParserText.StripNul | src/beatmap_parser.cpp:322-330 | the `remove_copy` into the line buffer computes `RemoveNul` |
| ParserText.FindFrom | src/beatmap_parser.cpp:336-339 | `find` returns the first position at or after the start where the pattern occurs, and nothing when it occurs nowhere from there |
| ParserText.IndexOf | src/beatmap_parser.cpp:173 | `std::find` of one character returns its first position, or nothing when it does not occur |
| ParserText.FindChar | src/beatmap_parser.cpp:173 | the `std::find` loop computes `IndexOf` |
| ParserSpec.EventsBackground | src/beatmap_parser.cpp:170-176 | a `0,0,"` line sets the background to exactly the text up to the first closing quote |
| ParserSpec.EventsUnclosedBackground | src/beatmap_parser.cpp:172-176 | a background line with no closing quote leaves the beatmap unchanged |
| ParserSpec.DecimalToken | src/beatmap_parser.cpp:182-184 | an integer written in decimal is one non-empty token with no `,` and no leading space, so `split` and `ltrim_view` keep it whole |
| ParserSpec.DecimalReadsBack | src/beatmap_parser.cpp:184-185 | an in-range integer written in decimal parses back as itself after trimming |
| ParserSpec.BreakTokens | src/beatmap_parser.cpp:178-182 | the text after the prefix of `2,a,b` splits into the two numbers' spellings, and the line is not a background line |
| ParserSpec.BreakLinePrefix | src/beatmap_parser.cpp:178-181 | a line made of `2,` and a rest is a break line, not a background line, and its value text is that rest |
| ParserSpec.EventsBreak | src/beatmap_parser.cpp:178-186 | a `2,a,b` line with in-range `a` and `b` appends exactly the break `(a, b)` and changes nothing else |
| ParserSpec.EventsKeepsTheRest | src/beatmap_parser.cpp:168-187 | an events line changes only the background and the breaks; the breaks only grow, by one exactly when the line starts with `2,` (and not `0,0,"`) and the rest has two tokens |
| ParserSpec.LastUninherited | src/beatmap_parser.cpp:211-213 | the reverse search finds an uninherited point, and every point after it is inherited; `None` means none is uninherited |
| ParserSpec.InheritedDuration | src/beatmap_parser.cpp:208-217 | a negative value gives `-value` percent of the beat duration of the latest uninherited point before it, truncated to microseconds |
| ParserSpec.OrphanInheritedDuration | src/beatmap_parser.cpp:214-217 | an inherited point with no uninherited point before it keeps the beat duration 0 |
| ParserSpec.TimingStepAppends | src/beatmap_parser.cpp:201-230 | a line with fewer than eight tokens changes nothing; otherwise one point is appended, uninherited exactly when its value is not negative, the earlier points and all other fields are kept, and the cursor goes back to the first point |
| ParserSpec.SliderDurationBounds | src/beatmap_parser.cpp:250-251 | for non-negative inputs the slider duration is the exact duration truncated to whole milliseconds: `d <= exact < d + 1` |
| ParserSpec.Timed | src/beatmap_parser.cpp:248-252 | the cursor only moves forward and stays within the timing points; it is at their end afterwards exactly when it was before |
| ParserSpec.HitobjectStepAddsOne | src/beatmap_parser.cpp:238-264 | a hit-object line adds at most one hit object and never moves the cursor back; a type with the circle bit appends exactly its circle, whatever its other bits |
| ParserSpec.RejectedSliderIgnored | src/beatmap_parser.cpp:245-246 | a slider line that `parse_slider` rejects changes nothing |
| ParserSpec.HitobjectGrows | src/beatmap_parser.cpp:233-265 | a hit-object line keeps the version and only appends to breaks, timing points and hit objects; the cursor stays valid and only moves forward |
| ParserSpec.GrowsTransitive | src/beatmap_parser.cpp:293-312 | "only appends" composes across lines |
| ParserSpec.LineStepGrows | src/beatmap_parser.cpp:293-312 | every line keeps the version, only appends to the lists and keeps the cursor valid; the cursor moves back only when a timing point has just been appended, and then it is at the first point |
| ParserSpec.Body | src/beatmap_parser.cpp:361-368 | the body loop keeps the timing cursor valid |
| ParserSpec.BodyAppend | src/beatmap_parser.cpp:361-368 | running the loop over two runs of lines is running it over the second from where the first stopped, and an exception in the first ends the parse |
| ParserSpec.BodyGrows | src/beatmap_parser.cpp:361-368 | over a whole body the version stays and breaks, timing points and hit objects only grow |
| ParserSpec.IgnoredSectionBody | src/beatmap_parser.cpp:293-312 | in `[Colours]` or no known section, lines up to the next header change nothing |
| ParserSpec.HeaderLineSwitches | src/beatmap_parser.cpp:297 | a header line only switches the section for the lines that follow |
| ParserSpec.VersionLine | src/beatmap_parser.cpp:332-343 | the search finds, from line `k` on, the first line holding `osu file format v`, with the position just past the prefix's first occurrence; no earlier line holds it |
| ParserSpec.VersionSearch | src/beatmap_parser.cpp:332-343 | the found line holds the prefix ending at the returned position |
| ParserSpec.VersionSearchAt | src/beatmap_parser.cpp:332-343 | the search over the remaining lines agrees with the search by index from line `k` on |
| ParserSpec.VersionSearchAll | src/beatmap_parser.cpp:332-343 | the search from the first line agrees with the search by index from line 0 |
| ParserSpec.ParseLinesNone | src/beatmap_parser.cpp:314-358 | no beatmap comes out exactly when there is no line, no line holds the version prefix, or the text after it does not start with an in-range integer |
| ParserSpec.ParseLinesVersion | src/beatmap_parser.cpp:349-358 | a beatmap that comes out carries the integer written after the version prefix |
| BeatmapParser.FindLastUninherited | src/beatmap_parser.cpp:211-213 | the reverse loop finds the latest uninherited point (`LastUninherited`) |
| BeatmapParser.ReadBeatDuration | src/beatmap_parser.cpp:208-222 | computes the beat duration the timing rules define (`BeatDuration`) |
| BeatmapParser.ReadTimingpoint | src/beatmap_parser.cpp:205-227 | reads the point the timing rules define from the eight trimmed tokens (`TimingpointOf`) |
| BeatmapParser.VersionIn | src/beatmap_parser.cpp:336-339 | gives the formatted line and the position past the prefix exactly when the line holds the prefix |
| BeatmapParser.PrepareLine | src/beatmap_parser.cpp:363-366 | formats a body line as the loop does: `'\0'`s stripped for UTF-16/32, then trimmed |
| BeatmapParser.SeekVersion | src/beatmap_parser.cpp:332-347 | finds a version line exactly when the search over the lines does, with the same line, position and remaining lines |
| BeatmapParser.Parser.constructor | src/beatmap_parser.h:42-46 | a new parser has an empty beatmap, no section and the cursor at the start |
| BeatmapParser.Parser.ParseKeyValue | src/beatmap_parser.cpp:88-166 | a key-value line sets the beatmap exactly as the section's key table says and leaves the section and cursor alone |
| BeatmapParser.Parser.ParseEvents | src/beatmap_parser.cpp:168-187 | an events line moves the beatmap exactly as `EventsStep` says |
| BeatmapParser.Parser.ParseTimingpoints | src/beatmap_parser.cpp:189-231 | a timing line moves beatmap, section and cursor exactly as `TimingStep` says |
| ParserSpec.LineRests | src/beatmap_parser.cpp:238-240 | each left-trimmed token of a hit-object line starts the text of the line from its first character on |
| BeatmapParser.Parser.ParseHitobject | src/beatmap_parser.cpp:233-265 | a hit-object line moves the state as `HitobjectStep` says, or throws exactly when it does, with the beatmap untouched |
| BeatmapParser.Parser.ParseLine | src/beatmap_parser.cpp:293-312 | a line moves the state as `LineStep` says, or throws exactly when it does |
| BeatmapParser.Parser.ParseBody | src/beatmap_parser.cpp:361-368 | the loop over the remaining lines ends in the state `Body` computes, or throws exactly when it does |
| BeatmapParser.Parser.ParseImpl | src/beatmap_parser.cpp:314-371 | returns what `ParseLines` computes from the lines the provider hands out |
| BeatmapParser.Parser.FromString | src/beatmap_parser.cpp:35-60 | returns what `ParseLines` computes from the lines of the text |
| BinaryReader.Window | src/binary_reader.h:47-50 | a read of `k` bytes at `at` succeeds exactly when they fit in the input, and gives `k` bytes |
| BinaryReader.ConsecutiveWindows | src/binary_reader.h:44-51 | reading `a + b` bytes succeeds exactly when reading `a` and then `b` bytes does, and gives their concatenation |
| BinaryReader.Pow256 | src/binary_reader.h:48 | the number of values of a `k`-byte type is positive |
| BinaryReader.UnsignedBound | src/binary_reader.h:48 | the little-endian value of `k` bytes fits in `k` bytes |
| BinaryReader.SignedRange | src/binary_reader.h:48 | the two's-complement value of `k` bytes lies in the signed range of a `k`-byte type |
| BinaryReader.Encode | src/binary_reader.h:48 | the little-endian encoding of a value in `k` bytes has `k` bytes |
| BinaryReader.UnsignedOfEncode | src/binary_reader.h:48 | reading back the encoding of an in-range value gives the value |
| BinaryReader.EncodeOfUnsigned | src/binary_reader.h:48 | encoding the value of any bytes gives the bytes back: the byte view is a bijection |
| BinaryReader.EncodeSigned | src/binary_reader.h:48 | the two's-complement encoding of a value in `k` bytes has `k` bytes |
| BinaryReader.SignedOfEncode | src/binary_reader.h:48 | reading back the two's-complement encoding of an in-range value gives the value |
| BinaryReader.UnsignedAt | src/binary_reader.h:44-51 | an unsigned read succeeds exactly when the bytes fit, is below `256^k`, and a one-byte read is that byte |
| BinaryReader.SignedAt | src/binary_reader.h:44-51 | a signed read succeeds exactly when the bytes fit |
| BinaryReader.UnsignedAtEncoded | src/binary_reader.h:44-51 | a value encoded at the read position is read back as itself, whatever surrounds it |
| BinaryReader.ByteCursor.constructor | src/binary_reader.h:34-41 | a reader starts at index 0 of its input |
| BinaryReader.ByteCursor.ReadType | src/binary_reader.h:44-51 | gives the next `k` bytes and moves past them when they fit; otherwise gives nothing and does not move |
| BinaryReader.ByteCursor.ReadUnsigned | src/binary_reader.h:44-51 | gives the little-endian value of the next `k` bytes and moves past them when they fit; otherwise does not move |
| BinaryReader.ByteCursor.ReadSigned | src/binary_reader.h:44-51 | gives the two's-complement value of the next `k` bytes and moves past them when they fit; otherwise does not move |
| BinaryReader.ByteCursor.ReadBytes | include/osu_reader/binary_reader.h:12-18 | a negative size throws; otherwise the next `size` bytes are given and skipped when they fit, and nothing moves when they do not |
| ReplayReader.GroupEnd | src/replay_reader.cpp:76-79 | a length group that ends ends after its first byte and within the input |
| ReplayReader.Uleb8At | src/replay_reader.cpp:68-81 | the length is read exactly when its group is complete in the input, and the reader ends just past the group |
| ReplayReader.EncodeLeb128 | src/replay_reader.cpp:68-81 | a LEB128 encoding has at least one byte |
| ReplayReader.Leb128RoundTrip | src/replay_reader.cpp:68-81 | a LEB128-encoded length is one group, and its value (section 7.6 of the DWARF 4 standard) is the encoded length |
| ReplayReader.Uleb8IsLowByte | src/replay_reader.cpp:74-80 | the 8-bit accumulator gives exactly the true LEB128 value modulo 256, for every group |
| ReplayReader.Uleb8OfEncoded | src/replay_reader.cpp:57-62 | a written length is read back modulo 256, and the reader ends past its group |
| ReplayReader.Uleb8Of300 | src/replay_reader.cpp:78 | the prefix `AC 02` of a 300-byte string is read as 44 |
| ReplayReader.StringAt | src/replay_reader.cpp:48-66 | a string that is read is shorter than 256 bytes |
| ReplayReader.StringOfEncoded | src/replay_reader.cpp:48-66 | a string under 256 bytes, written as an empty flag or as `0x0b`, length and bytes, is read back as itself, and the reader ends past it |
| ReplayReader.ReplayDataAt | src/replay_reader.cpp:83-93 | reading the frame data throws exactly when its 4-byte size is there and negative |
| ReplayReader.ReplayDataOfEncoded | src/replay_reader.cpp:83-93 | frame data written as its signed 4-byte size and its bytes is read back as itself, and the reader ends past it |
| ReplayReader.FieldFits | src/replay_reader.cpp:42 | a field that was read has a value its kind can hold, and the reader did not move back |
| ReplayReader.FieldsShape | src/replay_reader.cpp:41-44 | a chain of reads that succeeds gives one value per field, each one its kind can hold |
| ReplayReader.FieldsAtCons | src/replay_reader.cpp:41-44 | after one field is read, the chain goes on from where it ended |
| ReplayReader.Wrap64 | src/replay_reader.cpp:105-110 | narrowing to `int64_t` gives a value in the 64-bit signed range that is congruent to the input modulo 2^64 |
| ReplayReader.ToReplay | src/replay_reader.cpp:39-45 | the replay takes each field from its place in the read order |
| ReplayReader.FieldOfEncoded | src/replay_reader.cpp:42 | every field a writer stores is read back as the value written, and the reader ends past it |
| ReplayReader.EncodedSplit | src/replay_reader.cpp:42 | written fields lie one after another: the first at the start, the rest right after it |
| ReplayReader.Positions | src/replay_reader.cpp:42 | the written fields start at the start and end at the end of what was written |
| ReplayReader.EncodedPieces | src/replay_reader.cpp:42 | each written field sits at its position and ends where the next one starts |
| ReplayReader.PiecesRead | src/replay_reader.cpp:42 | each written field is read back, at its position, as the value written |
| ReplayReader.ChainOfReads | src/replay_reader.cpp:41-44 | reads that each succeed where the previous one ended chain into a read of all the fields |
| ReplayReader.FieldsOfEncoded | src/replay_reader.cpp:41-44 | any sequence of fields a writer stores is read back as the values written |
| ReplayReader.ParseOfEncoded | src/replay_reader.cpp:37-46 | round trip: parsing the bytes of a written replay gives the replay made of the written fields |
| ReplayReader.ParseEmpty | src/replay_reader.cpp:37-46 | an empty input gives no replay |
| ReplayReader.ReplayReader.constructor | src/replay_reader.cpp:24-26 | the reader reads from the given byte provider |
| ReplayReader.ReplayReader.ReadUleb128 | src/replay_reader.cpp:68-81 | gives the 8-bit length `Uleb8At` defines and moves past its group, or gives nothing exactly when the group is cut short |
| ReplayReader.ReplayReader.ReadString | src/replay_reader.cpp:48-66 | gives the string `StringAt` defines and moves past it, or fails exactly when it does |
| ReplayReader.ReplayReader.ReadReplayData | src/replay_reader.cpp:83-93 | gives the frame data `ReplayDataAt` defines and moves past it; throws and fails exactly when it does |
| ReplayReader.ReplayReader.ReadField | src/replay_reader.cpp:42 | reads one field as `FieldAt` defines it; throws and fails exactly when it does |
| ReplayReader.ReplayReader.ReadFields | src/replay_reader.cpp:41-44 | reads the fields in order as `FieldsAt` defines them, giving up at the first that fails |
| ReplayReader.ReplayReader.ParseReplay | src/replay_reader.cpp:37-46 | on a fresh reader, returns what `ParseReplaySpec` computes from the input |
| ReplayReader.FramesStep | src/replay_reader.cpp:161-172 | one step of the frame loop: an empty line is skipped, a line without exactly 4 tokens fails, a 4-token line adds its delta and emits a frame |
| ReplayReader.RecordsStep | src/replay_reader.cpp:161-163 | the records are the token lists of the lines that have any tokens |
| ReplayReader.FramesOfDrop | src/replay_reader.cpp:161-172 | the same step, at line `i` |
| ReplayReader.Records | src/replay_reader.cpp:162-163 | every record has at least one token |
| ReplayReader.FramesOfRecords | src/replay_reader.cpp:165-171 | one frame per record |
| ReplayReader.FramesAllOrNothing | src/replay_reader.cpp:161-173 | decoding gives frames exactly when every non-empty line has 4 tokens |
| ReplayReader.FramesPerRecord | src/replay_reader.cpp:161-173 | when decoding succeeds it gives one frame per record, in order |
| ReplayReader.RecordsCons | src/replay_reader.cpp:165-171 | a 4-token record in front gives its frame in front, and the rest of the frames start from its time |
| ReplayReader.FramesOfRecordsStep | src/replay_reader.cpp:165-171 | the first frame is at the first delta, and the rest follow from there |
| ReplayReader.DeltaSumStep | src/replay_reader.cpp:165 | the running time over a prefix starts with the first record's delta |
| ReplayReader.FrameTimes | src/replay_reader.cpp:160-171 | frame `i` is at the sum of the first `i + 1` deltas, with its own record's x, y and key state |
| ReplayReader.Nanoseconds | src/replay_reader.cpp:103-112 | the time stamp counts 100 ns ticks: it is 100 times the stored count while that fits in `int64_t`, and in every case a signed 64-bit value congruent to it modulo 2^64 |
| ReplayReader.DecodeFrames | src/replay_reader.cpp:148-177 | throws without LZMA support; otherwise no frames when decompression fails, else the frames of the decompressed text (`DecodeFramesSpec`) |
| ReplayReader.ReadFrame | src/replay_reader.cpp:165-171 | the running time moves by the record's first token, and the frame takes the new time and the other three tokens |
| ReplayReader.FramesLoop | src/replay_reader.cpp:156-173 | the loop over the lines computes `FramesOf` from time 0 |

## Left out

- Reading from files and streams is I/O, and is not modelled: `File_line_provider` and `from_file` (src/beatmap_parser.cpp:11-33), src/beatmap.cpp, src/replay.cpp, `Replay_reader::from_file`/`from_string`, `Binary_reader<std::ifstream>` and `Binary_file_reader`. The replay reader is modelled over an in-memory byte cursor.
- `lzma_decode` is a call into liblzma. `DecodeFrames` takes the decompressor as a function parameter, and whether LZMA support is compiled in as a flag.
- HitobjectParse.CurveParts: the text a curve part reads from ends where the trimmed hit-object line ends, not at the end of the file buffer. The curve is followed by at least two more fields, so both `std::stof` reads stop at a `,` inside the line or throw (throwing is not modelled). A part that is empty after trimming is undefined behaviour in the source (`front()` of an empty view); the model reads from the text after it.
- Floating-point rounding, and `std::stof`/`std::stod` throwing on bad input, are not modelled. `stof` is a total abstract function.
- Bezier.ApproximateBezier: the work loop, whose termination the source does not guarantee, is cut off after `fuel` iterations. Properties of its output hold when the fuel suffices (their lemmas require enough fuel). Every caller (`PerfectCircle`, `SliderPath`, the parser) passes the same bound on.
- SliderPath.Sliderpath: the direction-collapse loop of src/hitobject/sliderpath.cpp:41-47 is not modelled. It dereferences before the start of the path when it reaches the beginning, and it calls `normal`, which is not part of this model.
- Reclassifying perfect-circle segments as Bézier or linear while parsing is not modelled, because no parser code shown here does it.
- Integer overflow is not modelled in the running frame time, the slider and timing durations, or arithmetic on parsed values. All of these are unbounded integers. Parsed integers themselves are range-checked as `from_chars` does, and the 64-bit time stamp is wrapped explicitly (`Wrap64`).
- ReplayReader.Uleb8At: from the third byte of a group on, the accumulator's shifted bits (`7 * i >= 14`) are taken to contribute nothing to the 8-bit result. This is what narrowing back to 8 bits gives for every shift `int` defines. The shifts that overflow `int` (from `7 * i = 28` with high bits set) or exceed its width are undefined in C++, and the model gives them the same meaning.
- BeatmapParser.Parser.ParseImpl requires the timing cursor to be at the start, and starts in whatever section the parser was left in. This is what a fresh parser gives. Re-running a parser whose timing cursor points into an earlier beatmap's timing points is not modelled.
- BeatmapParser.Parser.constructor: the default-constructed `current_timingpoint_` iterator is taken to equal the end of the empty timing points.
- ParserSpec.SliderDuration: a zero slider multiplier, for which the source's float-to-integer conversion is undefined, leaves the duration at its default.
- The state a handler leaves behind after it throws (for example a timing cursor already moved) is not part of the model's promises beyond the beatmap being unchanged. The parse ends with `Throws`.
- The `static std::string` buffer of the `'\0'`-stripping lambda is process-wide storage. The model strips `'\0'` into a fresh string.
- The beatmap is returned by value. That `std::move` leaves the parser's `beatmap_` moved-from is not modelled.
- `parse_impl` takes a `Line_provider` object here, as in src/beatmap_parser.cpp. The older header declares a `std::function` line provider instead; the two hand out the same lines.
- Language bindings (src/python_bindings.cpp), the curve viewer (tests/curve_vis) and the parallel file scan (tests/src/parse_all.cpp) are outside the library core.
