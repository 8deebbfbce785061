/**
 * Difficulty-setting conversions (include/osu_reader/beatmap_util.h), exact
 * over the reals.
 */
module BeatmapUtil {

  /**
   * `ar_to_ms`: approach time in milliseconds. Both pieces are lines through
   * 1200 ms at AR 5, falling 150 ms per step above it and 120 ms below it.
   */
  function ArToMs(ar: real): (ms: real)
    ensures ar >= 5.0 ==> ms == 1200.0 - 150.0 * (ar - 5.0)
    ensures ar < 5.0 ==> ms == 1200.0 + 120.0 * (5.0 - ar)
  {
    if ar >= 5.0 then 1950.0 - ar * 150.0 else 1800.0 - ar * 120.0
  }

  /** A higher approach rate always means a shorter approach time. */
  lemma ArToMsStrictlyDecreasing(a: real, b: real)
    requires a < b
    ensures ArToMs(a) > ArToMs(b)
  {
  }

  lemma ArToMsSamples()
    ensures ArToMs(0.0) == 1800.0 && ArToMs(1.0) == 1680.0 && ArToMs(5.0) == 1200.0
    ensures ArToMs(10.0) == 450.0 && ArToMs(11.0) == 300.0
  {
  }

  /** `cs_to_osupixel`: the circle radius in osu!pixels. */
  function CsToOsupixel(cs: real): (px: real)
    ensures cs == 5.0 ==> px == 32.0
  {
    (512.0 / 16.0) * (1.0 - 0.7 * (cs - 5.0) / 5.0)
  }

  /** A larger circle size means a smaller radius. */
  lemma CsToOsupixelDecreasing(a: real, b: real)
    requires a < b
    ensures CsToOsupixel(a) > CsToOsupixel(b)
  {
  }

  /** `od_to_ms300`: half-width of the 300 hit window. */
  function OdToMs300(od: real): real
  {
    (159.0 - 12.0 * od) / 2.0
  }

  /** `od_to_ms100`: half-width of the 100 hit window. */
  function OdToMs100(od: real): real
  {
    (279.0 - 16.0 * od) / 2.0
  }

  /** `od_to_ms50`: half-width of the 50 hit window. */
  function OdToMs50(od: real): real
  {
    (399.0 - 20.0 * od) / 2.0
  }

  /**
   * The windows nest: 300 is narrower than 100, which is narrower than 50, for
   * every OD below 30 (so for the whole 0..10 range), and each narrows as OD grows.
   */
  lemma OdWindowsOrdered(od: real)
    requires od < 30.0
    ensures OdToMs300(od) < OdToMs100(od) < OdToMs50(od)
  {
  }

  lemma OdWindowsDecreasing(a: real, b: real)
    requires a < b
    ensures OdToMs300(a) > OdToMs300(b)
    ensures OdToMs100(a) > OdToMs100(b)
    ensures OdToMs50(a) > OdToMs50(b)
  {
  }
}
