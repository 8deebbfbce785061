/**
 * The forward-only timing-point cursor `next_timingpoint`
 * (src/timingpoints_helper.h). Iterators into the timing-point vector are
 * indices; `|tps|` is the end sentinel.
 */
module Timing {
  import opened BeatmapTypes

  /** `std::find_if_not(first, last, tp.time <= t)`: the first point after `t`, or the end. */
  function FindLater(tps: seq<Timingpoint>, first: nat, t: int): (it: nat)
    requires first <= |tps|
    ensures first <= it <= |tps|
    decreases |tps| - first
  {
    if first == |tps| || tps[first].time > t then first else FindLater(tps, first + 1, t)
  }

  /** `FindLater` stops at the first point after `t`, having passed only points at or before `t`. */
  lemma {:induction false} FindLaterSpec(tps: seq<Timingpoint>, first: nat, t: int)
    requires first <= |tps|
    ensures forall k :: first <= k < FindLater(tps, first, t) ==> tps[k].time <= t
    ensures FindLater(tps, first, t) < |tps| ==> tps[FindLater(tps, first, t)].time > t
    decreases |tps| - first
  {
    if first < |tps| && tps[first].time <= t {
      FindLaterSpec(tps, first + 1, t);
    }
  }

  /**
   * `next_timingpoint(first, end, t)`: the last point of the leading run
   * with time at most `t`, or `first` itself when that run is empty. The result
   * never moves backwards, and is the end only when `first` already was.
   */
  function NextTimingpoint(tps: seq<Timingpoint>, first: nat, t: int): (r: nat)
    requires first <= |tps|
    ensures first <= r <= |tps|
    ensures r == |tps| <==> first == |tps|
    ensures first < |tps| && tps[first].time > t ==> r == first
  {
    var it := FindLater(tps, first, t);
    if it != first then it - 1 else it
  }

  /**
   * When the first point is at or before `t`, every point from `first` to the
   * result is at or before `t`, and the point after the result is later than `t`.
   */
  lemma NextTimingpointLeadingRun(tps: seq<Timingpoint>, first: nat, t: int)
    requires first < |tps| && tps[first].time <= t
    ensures var r := NextTimingpoint(tps, first, t);
      && r < |tps|
      && (forall k :: first <= k <= r ==> tps[k].time <= t)
      && (r + 1 < |tps| ==> tps[r + 1].time > t)
  {
    FindLaterSpec(tps, first, t);
  }

  /** When no point from `first` on is later than `t`, the result is the last point, not the end. */
  lemma NextTimingpointAllEarlier(tps: seq<Timingpoint>, first: nat, t: int)
    requires first < |tps|
    requires forall k :: first <= k < |tps| ==> tps[k].time <= t
    ensures NextTimingpoint(tps, first, t) == |tps| - 1
  {
    FindLaterSpec(tps, first, t);
  }
}
