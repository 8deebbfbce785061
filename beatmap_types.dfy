/**
 * The records a beatmap is read into (include/osu_reader/beatmap.h,
 * hitobject.h and gamemode.h). Times are whole milliseconds, beat durations
 * whole microseconds, and `float` fields are reals.
 */
module BeatmapTypes {
  import opened Vec

  /** The game modes; a value-initialised field is `Osu`. */
  datatype Gamemode = Osu | Taiko | Ctb | Mania

  datatype Timingpoint = Timingpoint(
    time: int,
    beatDuration: int,
    meter: int,
    sampleSet: int,
    sampleIndex: int,
    sampleVolume: int,
    uninherited: bool,
    kiai: bool)

  /** A value-initialised `Timingpoint{}`. */
  const EmptyTimingpoint := Timingpoint(0, 0, 0, 0, 0, 0, false, false)

  /**
   * The curve kinds of `Slider_type`. The kind is stored as the character it
   * was written with, because the parser copies any letter into it unchecked.
   */
  const LinearKind: char := 'L'
  const PerfectKind: char := 'P'
  const BezierKind: char := 'B'
  const CatmullKind: char := 'C'

  datatype Segment = Segment(points: seq<Vector2>, kind: char)

  datatype Hitcircle = Hitcircle(pos: Vector2, time: int)

  datatype Slider = Slider(
    time: int,
    duration: int,
    kind: char,
    segments: seq<Segment>,
    points: seq<Vector2>,
    distances: seq<real>,
    repeat: int,
    length: real)

  datatype Spinner = Spinner(start: int, end: int)

  /** A break period: start and end in milliseconds. */
  datatype Break = Break(start: int, end: int)

  /** The `[General]` members of `Beatmap`. */
  datatype GeneralInfo = GeneralInfo(
    audioFile: string,
    audioLeadIn: int,
    previewTime: int,
    countdown: int,
    sampleSet: string,
    stackLeniency: real,
    mode: Gamemode,
    letterboxInBreaks: bool,
    storyFireInFront: bool,
    skinPreference: string,
    epilepsyWarning: bool,
    countdownOffset: int,
    widescreenStoryboard: bool,
    specialStyle: bool,
    useSkinSprites: bool)

  /** The `[Editor]` members of `Beatmap`. */
  datatype EditorInfo = EditorInfo(
    bookmarks: seq<int>,
    distanceSpacing: real,
    beatDivisor: int,
    gridSize: int,
    timelineZoom: real)

  /** The `[Metadata]` members of `Beatmap`. */
  datatype MetadataInfo = MetadataInfo(
    title: string,
    titleUnicode: string,
    artist: string,
    artistUnicode: string,
    creator: string,
    difficultyName: string,
    source: string,
    tags: seq<string>,
    beatmapId: int,
    beatmapSetId: int)

  /** The `[Difficulty]` members of `Beatmap`. */
  datatype DifficultyInfo = DifficultyInfo(
    hp: real,
    cs: real,
    od: real,
    ar: real,
    sliderMultiplier: real,
    sliderTickRate: real)

  /**
   * `Beatmap`. The members filled from the four `key:value` sections are
   * grouped by section; the struct declares them flat, in the same order.
   */
  datatype Beatmap = Beatmap(
    version: int,
    general: GeneralInfo,
    editor: EditorInfo,
    metadata: MetadataInfo,
    difficulty: DifficultyInfo,
    background: string,
    breaks: seq<Break>,
    timingpoints: seq<Timingpoint>,
    circles: seq<Hitcircle>,
    sliders: seq<Slider>,
    spinners: seq<Spinner>)

  /**
   * `Beatmap{}`: every member value-initialised, except the two with default
   * member initialisers (`slider_multiplier = 1.4f`, `slider_tick_rate = 1.f`).
   */
  const EmptyBeatmap := Beatmap(
    0,
    GeneralInfo("", 0, 0, 0, "", 0.0, Osu, false, false, "", false, 0, false, false, false),
    EditorInfo([], 0.0, 0, 0, 0.0),
    MetadataInfo("", "", "", "", "", "", "", [], 0, 0),
    DifficultyInfo(0.0, 0.0, 0.0, 0.0, 1.4, 1.0),
    "", [],
    [],
    [], [], [])
}
