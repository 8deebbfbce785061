/**
 * The `key:value` sections of the beatmap parser (src/beatmap_parser.cpp):
 * the four key tables, the member each key points at, the `parse_value`
 * overload chosen by that member's type (src/parse_string.h), and
 * `if_found_parse`, which looks a key up and converts the value into the member.
 */
module BeatmapFields {
  import opened Wrappers
  import opened Numerics
  import opened Strings
  import opened ParseString
  import opened BeatmapTypes

  /** The `Beatmap` members a key table can point at, by the section they belong to. */
  datatype Field = Gen(g: GeneralField) | Ed(e: EditorField) | Meta(m: MetadataField) | Diff(d: DifficultyField)

  datatype GeneralField =
    | AudioFile | AudioLeadIn | PreviewTime | Countdown | SampleSet | StackLeniency | Mode
    | LetterboxInBreaks | StoryFireInFront | SkinPreference | EpilepsyWarning | CountdownOffset
    | WidescreenStoryboard | SpecialStyle | UseSkinSprites

  datatype EditorField = Bookmarks | DistanceSpacing | BeatDivisor | GridSize | TimelineZoom

  datatype MetadataField =
    | Title | TitleUnicode | Artist | ArtistUnicode | Creator | DifficultyName | Source | Tags
    | BeatmapId | BeatmapSetId

  datatype DifficultyField = Hp | Cs | Od | Ar | SliderMultiplier | SliderTickRate

  /** A member's value, tagged with its C++ type: the alternatives of `Beatmap_types`. */
  datatype FieldValue =
    | IntField(i: int)                 // int
    | RealField(r: real)               // float
    | BoolField(b: bool)               // bool
    | TextField(s: string)             // std::string and std::filesystem::path
    | MsField(ms: int)                 // std::chrono::milliseconds
    | ByteField(u: int)                // std::uint8_t
    | ModeField(m: Gamemode)           // Gamemode
    | MsListField(l: seq<int>)         // std::vector<std::chrono::milliseconds>
    | TextListField(t: seq<string>)    // std::vector<std::string>

  /** Two values of the same C++ type. */
  predicate SameType(a: FieldValue, b: FieldValue)
  {
    match a
    case IntField(_) => b.IntField?
    case RealField(_) => b.RealField?
    case BoolField(_) => b.BoolField?
    case TextField(_) => b.TextField?
    case MsField(_) => b.MsField?
    case ByteField(_) => b.ByteField?
    case ModeField(_) => b.ModeField?
    case MsListField(_) => b.MsListField?
    case TextListField(_) => b.TextListField?
  }

  /** `bm.*f`: the member `f` points at, read. */
  function Get(bm: Beatmap, f: Field): FieldValue
  {
    match f
    case Gen(g) => GetGeneral(bm.general, g)
    case Ed(e) => GetEditor(bm.editor, e)
    case Meta(m) => GetMetadata(bm.metadata, m)
    case Diff(d) => GetDifficulty(bm.difficulty, d)
  }

  function GetGeneral(x: GeneralInfo, f: GeneralField): FieldValue
  {
    match f
    case AudioFile => TextField(x.audioFile)
    case AudioLeadIn => MsField(x.audioLeadIn)
    case PreviewTime => MsField(x.previewTime)
    case Countdown => ByteField(x.countdown)
    case SampleSet => TextField(x.sampleSet)
    case StackLeniency => RealField(x.stackLeniency)
    case Mode => ModeField(x.mode)
    case LetterboxInBreaks => BoolField(x.letterboxInBreaks)
    case StoryFireInFront => BoolField(x.storyFireInFront)
    case SkinPreference => TextField(x.skinPreference)
    case EpilepsyWarning => BoolField(x.epilepsyWarning)
    case CountdownOffset => IntField(x.countdownOffset)
    case WidescreenStoryboard => BoolField(x.widescreenStoryboard)
    case SpecialStyle => BoolField(x.specialStyle)
    case UseSkinSprites => BoolField(x.useSkinSprites)
  }

  function GetEditor(x: EditorInfo, f: EditorField): FieldValue
  {
    match f
    case Bookmarks => MsListField(x.bookmarks)
    case DistanceSpacing => RealField(x.distanceSpacing)
    case BeatDivisor => IntField(x.beatDivisor)
    case GridSize => IntField(x.gridSize)
    case TimelineZoom => RealField(x.timelineZoom)
  }

  function GetMetadata(x: MetadataInfo, f: MetadataField): FieldValue
  {
    match f
    case Title => TextField(x.title)
    case TitleUnicode => TextField(x.titleUnicode)
    case Artist => TextField(x.artist)
    case ArtistUnicode => TextField(x.artistUnicode)
    case Creator => TextField(x.creator)
    case DifficultyName => TextField(x.difficultyName)
    case Source => TextField(x.source)
    case Tags => TextListField(x.tags)
    case BeatmapId => IntField(x.beatmapId)
    case BeatmapSetId => IntField(x.beatmapSetId)
  }

  function GetDifficulty(x: DifficultyInfo, f: DifficultyField): FieldValue
  {
    match f
    case Hp => RealField(x.hp)
    case Cs => RealField(x.cs)
    case Od => RealField(x.od)
    case Ar => RealField(x.ar)
    case SliderMultiplier => RealField(x.sliderMultiplier)
    case SliderTickRate => RealField(x.sliderTickRate)
  }

  // The payload of a value of the named type, or `dflt` for a value of another type.
  function AsInt(v: FieldValue, dflt: int): int { if v.IntField? then v.i else dflt }
  function AsReal(v: FieldValue, dflt: real): real { if v.RealField? then v.r else dflt }
  function AsBool(v: FieldValue, dflt: bool): bool { if v.BoolField? then v.b else dflt }
  function AsText(v: FieldValue, dflt: string): string { if v.TextField? then v.s else dflt }
  function AsMs(v: FieldValue, dflt: int): int { if v.MsField? then v.ms else dflt }
  function AsByte(v: FieldValue, dflt: int): int { if v.ByteField? then v.u else dflt }
  function AsMode(v: FieldValue, dflt: Gamemode): Gamemode { if v.ModeField? then v.m else dflt }
  function AsMsList(v: FieldValue, dflt: seq<int>): seq<int> { if v.MsListField? then v.l else dflt }
  function AsTextList(v: FieldValue, dflt: seq<string>): seq<string> { if v.TextListField? then v.t else dflt }

  /**
   * `bm.*f = v`: the member `f` points at, written with `v`; every other
   * member keeps its value (and so does `f`'s for a value of another type).
   */
  function Put(bm: Beatmap, f: Field, v: FieldValue): Beatmap
  {
    match f
    case Gen(g) => bm.(general := PutGeneral(bm.general, g, v))
    case Ed(e) => bm.(editor := PutEditor(bm.editor, e, v))
    case Meta(m) => bm.(metadata := PutMetadata(bm.metadata, m, v))
    case Diff(d) => bm.(difficulty := PutDifficulty(bm.difficulty, d, v))
  }

  function PutGeneral(g: GeneralInfo, f: GeneralField, v: FieldValue): GeneralInfo
  {
    g.(
      audioFile := if f == AudioFile then AsText(v, g.audioFile) else g.audioFile,
      audioLeadIn := if f == AudioLeadIn then AsMs(v, g.audioLeadIn) else g.audioLeadIn,
      previewTime := if f == PreviewTime then AsMs(v, g.previewTime) else g.previewTime,
      countdown := if f == Countdown then AsByte(v, g.countdown) else g.countdown,
      sampleSet := if f == SampleSet then AsText(v, g.sampleSet) else g.sampleSet,
      stackLeniency := if f == StackLeniency then AsReal(v, g.stackLeniency) else g.stackLeniency,
      mode := if f == Mode then AsMode(v, g.mode) else g.mode,
      letterboxInBreaks := if f == LetterboxInBreaks then AsBool(v, g.letterboxInBreaks) else g.letterboxInBreaks,
      storyFireInFront := if f == StoryFireInFront then AsBool(v, g.storyFireInFront) else g.storyFireInFront,
      skinPreference := if f == SkinPreference then AsText(v, g.skinPreference) else g.skinPreference,
      epilepsyWarning := if f == EpilepsyWarning then AsBool(v, g.epilepsyWarning) else g.epilepsyWarning,
      countdownOffset := if f == CountdownOffset then AsInt(v, g.countdownOffset) else g.countdownOffset,
      widescreenStoryboard := if f == WidescreenStoryboard then AsBool(v, g.widescreenStoryboard) else g.widescreenStoryboard,
      specialStyle := if f == SpecialStyle then AsBool(v, g.specialStyle) else g.specialStyle,
      useSkinSprites := if f == UseSkinSprites then AsBool(v, g.useSkinSprites) else g.useSkinSprites)
  }

  function PutEditor(e: EditorInfo, f: EditorField, v: FieldValue): EditorInfo
  {
    e.(
      bookmarks := if f == Bookmarks then AsMsList(v, e.bookmarks) else e.bookmarks,
      distanceSpacing := if f == DistanceSpacing then AsReal(v, e.distanceSpacing) else e.distanceSpacing,
      beatDivisor := if f == BeatDivisor then AsInt(v, e.beatDivisor) else e.beatDivisor,
      gridSize := if f == GridSize then AsInt(v, e.gridSize) else e.gridSize,
      timelineZoom := if f == TimelineZoom then AsReal(v, e.timelineZoom) else e.timelineZoom)
  }

  function PutMetadata(m: MetadataInfo, f: MetadataField, v: FieldValue): MetadataInfo
  {
    m.(
      title := if f == Title then AsText(v, m.title) else m.title,
      titleUnicode := if f == TitleUnicode then AsText(v, m.titleUnicode) else m.titleUnicode,
      artist := if f == Artist then AsText(v, m.artist) else m.artist,
      artistUnicode := if f == ArtistUnicode then AsText(v, m.artistUnicode) else m.artistUnicode,
      creator := if f == Creator then AsText(v, m.creator) else m.creator,
      difficultyName := if f == DifficultyName then AsText(v, m.difficultyName) else m.difficultyName,
      source := if f == Source then AsText(v, m.source) else m.source,
      tags := if f == Tags then AsTextList(v, m.tags) else m.tags,
      beatmapId := if f == BeatmapId then AsInt(v, m.beatmapId) else m.beatmapId,
      beatmapSetId := if f == BeatmapSetId then AsInt(v, m.beatmapSetId) else m.beatmapSetId)
  }

  function PutDifficulty(d: DifficultyInfo, f: DifficultyField, v: FieldValue): DifficultyInfo
  {
    d.(
      hp := if f == Hp then AsReal(v, d.hp) else d.hp,
      cs := if f == Cs then AsReal(v, d.cs) else d.cs,
      od := if f == Od then AsReal(v, d.od) else d.od,
      ar := if f == Ar then AsReal(v, d.ar) else d.ar,
      sliderMultiplier := if f == SliderMultiplier then AsReal(v, d.sliderMultiplier) else d.sliderMultiplier,
      sliderTickRate := if f == SliderTickRate then AsReal(v, d.sliderTickRate) else d.sliderTickRate)
  }

  /** Reading a member back after writing it gives the value written. */
  lemma GetPut(bm: Beatmap, f: Field, v: FieldValue)
    requires SameType(Get(bm, f), v)
    ensures Get(Put(bm, f, v), f) == v
  {
    match f
    case Gen(g) => GetPutGeneral(bm.general, g, v);
    case Ed(e) => GetPutEditor(bm.editor, e, v);
    case Meta(m) => GetPutMetadata(bm.metadata, m, v);
    case Diff(d) => GetPutDifficulty(bm.difficulty, d, v);
  }

  lemma GetPutGeneral(x: GeneralInfo, f: GeneralField, v: FieldValue)
    requires SameType(GetGeneral(x, f), v)
    ensures GetGeneral(PutGeneral(x, f, v), f) == v
  {
  }

  lemma GetPutEditor(x: EditorInfo, f: EditorField, v: FieldValue)
    requires SameType(GetEditor(x, f), v)
    ensures GetEditor(PutEditor(x, f, v), f) == v
  {
  }

  lemma GetPutMetadata(x: MetadataInfo, f: MetadataField, v: FieldValue)
    requires SameType(GetMetadata(x, f), v)
    ensures GetMetadata(PutMetadata(x, f, v), f) == v
  {
  }

  lemma GetPutDifficulty(x: DifficultyInfo, f: DifficultyField, v: FieldValue)
    requires SameType(GetDifficulty(x, f), v)
    ensures GetDifficulty(PutDifficulty(x, f, v), f) == v
  {
  }

  /** Writing a member's own value back changes nothing. */
  lemma PutGet(bm: Beatmap, f: Field)
    ensures Put(bm, f, Get(bm, f)) == bm
  {
    match f
    case Gen(g) => PutGetGeneral(bm.general, g);
    case Ed(e) => PutGetEditor(bm.editor, e);
    case Meta(m) => PutGetMetadata(bm.metadata, m);
    case Diff(d) => PutGetDifficulty(bm.difficulty, d);
  }

  lemma PutGetGeneral(x: GeneralInfo, f: GeneralField)
    ensures PutGeneral(x, f, GetGeneral(x, f)) == x
  {
  }

  lemma PutGetEditor(x: EditorInfo, f: EditorField)
    ensures PutEditor(x, f, GetEditor(x, f)) == x
  {
  }

  lemma PutGetMetadata(x: MetadataInfo, f: MetadataField)
    ensures PutMetadata(x, f, GetMetadata(x, f)) == x
  {
  }

  lemma PutGetDifficulty(x: DifficultyInfo, f: DifficultyField)
    ensures PutDifficulty(x, f, GetDifficulty(x, f)) == x
  {
  }

  /** Writing one member leaves every other member as it was. */
  lemma PutOther(bm: Beatmap, f: Field, g: Field, v: FieldValue)
    requires f != g
    ensures Get(Put(bm, f, v), g) == Get(bm, g)
  {
    match (f, g)
    case (Gen(a), Gen(b)) => PutOtherGeneral(bm.general, a, b, v);
    case (Ed(a), Ed(b)) => PutOtherEditor(bm.editor, a, b, v);
    case (Meta(a), Meta(b)) => PutOtherMetadata(bm.metadata, a, b, v);
    case (Diff(a), Diff(b)) => PutOtherDifficulty(bm.difficulty, a, b, v);
    case _ =>
  }

  lemma PutOtherGeneral(x: GeneralInfo, f: GeneralField, g: GeneralField, v: FieldValue)
    requires f != g
    ensures GetGeneral(PutGeneral(x, f, v), g) == GetGeneral(x, g)
  {
  }

  lemma PutOtherEditor(x: EditorInfo, f: EditorField, g: EditorField, v: FieldValue)
    requires f != g
    ensures GetEditor(PutEditor(x, f, v), g) == GetEditor(x, g)
  {
  }

  lemma PutOtherMetadata(x: MetadataInfo, f: MetadataField, g: MetadataField, v: FieldValue)
    requires f != g
    ensures GetMetadata(PutMetadata(x, f, v), g) == GetMetadata(x, g)
  {
  }

  lemma PutOtherDifficulty(x: DifficultyInfo, f: DifficultyField, g: DifficultyField, v: FieldValue)
    requires f != g
    ensures GetDifficulty(PutDifficulty(x, f, v), g) == GetDifficulty(x, g)
  {
  }

  /** No table member is one of the parser's other results. */
  lemma PutKeepsSections(bm: Beatmap, f: Field, v: FieldValue)
    ensures var r := Put(bm, f, v);
      && r.version == bm.version && r.background == bm.background && r.breaks == bm.breaks
      && r.timingpoints == bm.timingpoints
      && r.circles == bm.circles && r.sliders == bm.sliders && r.spinners == bm.spinners
  {
  }

  /** The `int` parse with `fallback` when it fails (`from_chars` leaves its target alone). */
  function IntOr(text: string, fallback: int): int
  {
    OrElse(FromChars(text, true, Int32Min, Int32Max), fallback)
  }

  /** The bool overload: `'1'` and `'0'` as first character decide, anything else keeps `b`. */
  function BoolOf(text: string, b: bool): bool
  {
    if text != [] && text[0] == '1' then true
    else if text != [] && text[0] == '0' then false
    else b
  }

  /** The bookmark values of the space-separated tokens of `text`. */
  function MsTokens(text: string): (r: seq<int>)
    ensures |r| == |Tokens(text, ' ')|
  {
    var ts := Tokens(text, ' ');
    seq(|ts|, k requires 0 <= k < |ts| => MsOfToken(ts[k]))
  }

  /** `parse_value(text, member)` for a member whose current value is `cur`. */
  function Coerce(num: Numerics, text: string, cur: FieldValue): (r: FieldValue)
  {
    match cur
    case IntField(i) => IntField(IntOr(text, i))
    case RealField(_) => RealField(num.stof(text))
    case BoolField(b) => BoolField(BoolOf(text, b))
    case TextField(_) => TextField(text)
    case MsField(_) => MsField(IntOr(text, 0))
    case ByteField(u) => ByteField(OrElse(FromChars(text, false, 0, UInt8Max), u))
    case ModeField(m) => ModeField(m)
    case MsListField(l) => MsListField(l + MsTokens(text))
    case TextListField(t) => TextListField(t + Tokens(text, ' '))
  }

  /** The conversion keeps the member's type, so its result can be written back. */
  lemma CoerceSameType(num: Numerics, text: string, cur: FieldValue)
    ensures SameType(cur, Coerce(num, text, cur))
  {
  }

  /**
   * What the conversion promises per type: the game mode never changes, the
   * list members only grow at the end, a millisecond member that does not
   * parse becomes 0, and a text member takes the text verbatim.
   */
  lemma CoerceEffects(num: Numerics, text: string, cur: FieldValue)
    ensures cur.ModeField? ==> Coerce(num, text, cur) == cur
    ensures cur.MsListField? ==>
      var l := Coerce(num, text, cur).l;
      |l| == |cur.l| + |Tokens(text, ' ')| && l[..|cur.l|] == cur.l
    ensures cur.TextListField? ==>
      var t := Coerce(num, text, cur).t;
      |t| >= |cur.t| && t[..|cur.t|] == cur.t && forall k :: |cur.t| <= k < |t| ==> t[k] != [] && Free(t[k], ' ')
    ensures cur.MsField? && FromChars(text, true, Int32Min, Int32Max).None? ==> Coerce(num, text, cur) == MsField(0)
    ensures cur.TextField? ==> Coerce(num, text, cur) == TextField(text)
  {
    if cur.MsListField? {
      var l := Coerce(num, text, cur).l;
      assert l == cur.l + MsTokens(text);
      assert l[..|cur.l|] == cur.l;
    }
    if cur.TextListField? {
      var t := Coerce(num, text, cur).t;
      var ts := Tokens(text, ' ');
      TokensWellFormed(text, ' ');
      assert t == cur.t + ts;
      assert t[..|cur.t|] == cur.t;
      forall k | |cur.t| <= k < |t|
        ensures t[k] != [] && Free(t[k], ' ')
      {
        assert t[k] == ts[k - |cur.t|];
      }
    }
  }

  /** The `std::visit` dispatch on the member's type, calling the matching `parse_value` overload. */
  method ParseValue(num: Numerics, text: string, cur: FieldValue) returns (r: FieldValue)
    ensures r == Coerce(num, text, cur)
  {
    match cur
    case IntField(i) =>
      var v := ParseInt(text, i);
      r := IntField(v);
    case RealField(_) =>
      r := RealField(num.stof(text));
    case BoolField(b) =>
      var v := ParseBool(text, b);
      r := BoolField(v);
    case TextField(s) =>
      var v := ParseText(text, s);
      r := TextField(v);
    case MsField(ms) =>
      var v := ParseMs(text, ms);
      r := MsField(v);
    case ByteField(u) =>
      var v := ParseUInt8(text, u);
      r := ByteField(v);
    case ModeField(m) =>
      var v := ParseGamemode(text, m);
      r := ModeField(v);
    case MsListField(l) =>
      var v := ParseMsList(text, l);
      assert v == l + MsTokens(text);
      r := MsListField(v);
    case TextListField(t) =>
      var v := ParseStringList(text, t);
      r := TextListField(v);
  }

  /** The `[General]` table. */
  const GeneralTable: seq<(string, Field)> := [
    ("AudioFilename", Gen(AudioFile)),
    ("AudioLeadIn", Gen(AudioLeadIn)),
    ("PreviewTime", Gen(PreviewTime)),
    ("Countdown", Gen(Countdown)),
    ("SampleSet", Gen(SampleSet)),
    ("StackLeniency", Gen(StackLeniency)),
    ("Mode", Gen(Mode)),
    ("LetterboxInBreaks", Gen(LetterboxInBreaks)),
    ("StoryFireInFront", Gen(StoryFireInFront)),
    ("SkinPreference", Gen(SkinPreference)),
    ("EpilepsyWarning", Gen(EpilepsyWarning)),
    ("CountdownOffset", Gen(CountdownOffset)),
    ("WidescreenStoryboard", Gen(WidescreenStoryboard)),
    ("SpecialStyle", Gen(SpecialStyle)),
    ("UseSkinSprites", Gen(UseSkinSprites))
  ]

  /** The `[Editor]` table. */
  const EditorTable: seq<(string, Field)> := [
    ("Bookmarks", Ed(Bookmarks)),
    ("DistanceSpacing", Ed(DistanceSpacing)),
    ("BeatDivisor", Ed(BeatDivisor)),
    ("GridSize", Ed(GridSize)),
    ("TimelineZoom", Ed(TimelineZoom))
  ]

  /** The `[Metadata]` table; the `Version` key names the difficulty. */
  const MetadataTable: seq<(string, Field)> := [
    ("Title", Meta(Title)),
    ("TitleUnicode", Meta(TitleUnicode)),
    ("Artist", Meta(Artist)),
    ("ArtistUnicode", Meta(ArtistUnicode)),
    ("Creator", Meta(Creator)),
    ("Version", Meta(DifficultyName)),
    ("Source", Meta(Source)),
    ("Tags", Meta(Tags)),
    ("BeatmapID", Meta(BeatmapId)),
    ("BeatmapSetID", Meta(BeatmapSetId))
  ]

  /** The `[Difficulty]` table, with the tick-rate key spelt with a trailing space as in the source. */
  const DifficultyTable: seq<(string, Field)> := [
    ("HPDrainRate", Diff(Hp)),
    ("CircleSize", Diff(Cs)),
    ("OverallDifficulty", Diff(Od)),
    ("ApproachRate", Diff(Ar)),
    ("SliderMultiplier", Diff(SliderMultiplier)),
    ("SliderTickRate ", Diff(SliderTickRate))
  ]

  /** `std::find_if` over a table: the member of the first entry whose key is `key`. */
  function Lookup(table: seq<(string, Field)>, key: string): Option<Field>
  {
    if table == [] then None
    else if table[0].0 == key then Some(table[0].1)
    else Lookup(table[1..], key)
  }

  /** The lookup finds the first entry with the key, and finds nothing exactly when no entry has it. */
  lemma {:induction false} LookupSpec(table: seq<(string, Field)>, key: string)
    ensures Lookup(table, key).None? <==> forall i :: 0 <= i < |table| ==> table[i].0 != key
    ensures Lookup(table, key).Some? ==>
      exists i :: 0 <= i < |table| && table[i] == (key, Lookup(table, key).value)
        && forall j :: 0 <= j < i ==> table[j].0 != key
  {
    if table != [] && table[0].0 != key {
      LookupSpec(table[1..], key);
      if Lookup(table, key).Some? {
        var i :| 0 <= i < |table[1..]| && table[1..][i] == (key, Lookup(table, key).value)
          && forall j :: 0 <= j < i ==> table[1..][j].0 != key;
        assert table[i + 1] == table[1..][i];
        assert forall j :: 1 <= j < i + 1 ==> table[j] == table[1..][j - 1];
      }
    }
    if table != [] && table[0].0 == key {
      assert table[0] == (key, Lookup(table, key).value);
    }
  }

  /** `if_found_parse`: the member of the left-trimmed key, if any, gets the left-trimmed value. */
  function FoundParsed(num: Numerics, table: seq<(string, Field)>, keyText: string, valueText: string,
                       bm: Beatmap): Beatmap
  {
    match Lookup(table, LtrimView(keyText))
    case None => bm
    case Some(f) => Put(bm, f, Coerce(num, LtrimView(valueText), Get(bm, f)))
  }

  /**
   * A `key:value` line of one of the four sections: it must split on `:`
   * into exactly two tokens, so a value that itself holds a `:` is ignored.
   */
  function KeyValue(num: Numerics, table: seq<(string, Field)>, bm: Beatmap, line: string): Beatmap
  {
    var tokens := Tokens(line, ':');
    if |tokens| != 2 then bm else FoundParsed(num, table, tokens[0], tokens[1], bm)
  }

  /** `if_found_parse` with its `find_if` written out as a loop over the table. */
  method IfFoundParse(num: Numerics, table: seq<(string, Field)>, keyText: string, valueText: string,
                      bm: Beatmap) returns (r: Beatmap)
    ensures r == FoundParsed(num, table, keyText, valueText, bm)
  {
    var key := LtrimView(keyText);
    var i := 0;
    while i < |table| && table[i].0 != key
      invariant 0 <= i <= |table|
      invariant Lookup(table, key) == Lookup(table[i..], key)
    {
      assert table[i..][1..] == table[i + 1..];
      i := i + 1;
    }
    if i == |table| {
      return bm;
    }
    var f := table[i].1;
    var v := ParseValue(num, LtrimView(valueText), Get(bm, f));
    r := Put(bm, f, v);
  }

  /**
   * A key-value line changes at most the one member its key names: every
   * other member, and every result outside the key tables, stays as it was.
   */
  lemma KeyValueChangesOneMember(num: Numerics, table: seq<(string, Field)>, bm: Beatmap, line: string, g: Field)
    requires var tokens := Tokens(line, ':'); |tokens| != 2 || Lookup(table, LtrimView(tokens[0])) != Some(g)
    ensures Get(KeyValue(num, table, bm, line), g) == Get(bm, g)
  {
    var tokens := Tokens(line, ':');
    if |tokens| == 2 {
      var key := LtrimView(tokens[0]);
      if Lookup(table, key).Some? {
        var f := Lookup(table, key).value;
        PutOther(bm, f, g, Coerce(num, LtrimView(tokens[1]), Get(bm, f)));
      }
    }
  }

  /** A key-value line whose key is found converts its value into that key's member. */
  lemma KeyValueSets(num: Numerics, table: seq<(string, Field)>, bm: Beatmap, line: string, f: Field)
    requires var tokens := Tokens(line, ':'); |tokens| == 2 && Lookup(table, LtrimView(tokens[0])) == Some(f)
    ensures Get(KeyValue(num, table, bm, line), f) == Coerce(num, LtrimView(Tokens(line, ':')[1]), Get(bm, f))
  {
    var tokens := Tokens(line, ':');
    CoerceSameType(num, LtrimView(tokens[1]), Get(bm, f));
    GetPut(bm, f, Coerce(num, LtrimView(tokens[1]), Get(bm, f)));
  }

  /** Timing points, events and hit objects are never touched by a key-value line. */
  lemma KeyValueKeepsSections(num: Numerics, table: seq<(string, Field)>, bm: Beatmap, line: string)
    ensures var r := KeyValue(num, table, bm, line);
      && r.version == bm.version && r.background == bm.background && r.breaks == bm.breaks
      && r.timingpoints == bm.timingpoints
      && r.circles == bm.circles && r.sliders == bm.sliders && r.spinners == bm.spinners
  {
    var tokens := Tokens(line, ':');
    if |tokens| == 2 && Lookup(table, LtrimView(tokens[0])).Some? {
      var f := Lookup(table, LtrimView(tokens[0])).value;
      PutKeepsSections(bm, f, Coerce(num, LtrimView(tokens[1]), Get(bm, f)));
    }
  }

  /** The `Mode` line converts its value and then assigns the member from itself: the mode never changes. */
  lemma GeneralKeepsMode(num: Numerics, bm: Beatmap, line: string)
    ensures KeyValue(num, GeneralTable, bm, line).general.mode == bm.general.mode
  {
    var tokens := Tokens(line, ':');
    if |tokens| == 2 && Lookup(GeneralTable, LtrimView(tokens[0])) == Some(Gen(Mode)) {
      KeyValueSets(num, GeneralTable, bm, line, Gen(Mode));
    } else {
      KeyValueChangesOneMember(num, GeneralTable, bm, line, Gen(Mode));
    }
  }

  /**
   * The tick-rate entry carries a trailing space, and a left trim never removes
   * one: a line whose key is `SliderTickRate` leaves the beatmap unchanged.
   */
  lemma SliderTickRateKeyIgnored(num: Numerics, bm: Beatmap, line: string)
    requires var tokens := Tokens(line, ':'); |tokens| == 2 && LtrimView(tokens[0]) == "SliderTickRate"
    ensures KeyValue(num, DifficultyTable, bm, line) == bm
  {
    NoTickRateKey();
  }

  /** No entry of the `[Difficulty]` table has the key `SliderTickRate` without the trailing space. */
  lemma NoTickRateKey()
    ensures Lookup(DifficultyTable, "SliderTickRate") == None
  {
    LookupSpec(DifficultyTable, "SliderTickRate");
    forall i | 0 <= i < |DifficultyTable|
      ensures DifficultyTable[i].0 != "SliderTickRate"
    {
      assert |DifficultyTable[i].0| != |"SliderTickRate"|;
    }
  }

  /** No two entries of `table` share a key. */
  predicate DistinctKeys(table: seq<(string, Field)>)
  {
    forall i, j :: 0 <= i < j < |table| ==> table[i].0 != table[j].0
  }

  /** An entry whose key no earlier entry has is the one its key finds. */
  lemma {:induction false} LookupFirst(table: seq<(string, Field)>, i: nat)
    requires i < |table| && forall j :: 0 <= j < i ==> table[j].0 != table[i].0
    ensures Lookup(table, table[i].0) == Some(table[i].1)
  {
    if i > 0 {
      assert table[1..][i - 1] == table[i];
      LookupFirst(table[1..], i - 1);
    }
  }

  /** In a table of distinct keys every key finds its own entry, so no entry is shadowed. */
  lemma DistinctKeysFound(table: seq<(string, Field)>)
    requires DistinctKeys(table)
    ensures forall i :: 0 <= i < |table| ==> Lookup(table, table[i].0) == Some(table[i].1)
  {
    forall i | 0 <= i < |table|
      ensures Lookup(table, table[i].0) == Some(table[i].1)
    {
      LookupFirst(table, i);
    }
  }

  /** The keys of each of the four tables are distinct. */
  lemma GeneralKeysDistinct()
    ensures DistinctKeys(GeneralTable)
  {
  }

  lemma EditorKeysDistinct()
    ensures DistinctKeys(EditorTable)
  {
  }

  lemma MetadataKeysDistinct()
    ensures DistinctKeys(MetadataTable)
  {
  }

  lemma DifficultyKeysDistinct()
    ensures DistinctKeys(DifficultyTable)
  {
  }
}
