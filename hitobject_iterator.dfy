/**
 * The hit-object iterator (include/osu_reader/hitobject_iterator.h): three
 * cursors, one into each of a beatmap's circle, slider and spinner lists, merged
 * by time. The callback it is given is modelled by the record of the objects it
 * was called with.
 */
module HitobjectIterator {
  import opened Wrappers
  import opened BeatmapTypes

  /** What the callback receives: one object of one of the three kinds. */
  datatype Hitobject = CircleObject(circle: Hitcircle) | SliderObject(slider: Slider) | SpinnerObject(spinner: Spinner)

  /** The three lists being merged. */
  datatype Lists = Lists(circles: seq<Hitcircle>, sliders: seq<Slider>, spinners: seq<Spinner>)

  /** The positions of the three cursors. */
  datatype Cursors = Cursors(c: nat, s: nat, p: nat)

  predicate InRange(l: Lists, k: Cursors)
  {
    k.c <= |l.circles| && k.s <= |l.sliders| && k.p <= |l.spinners|
  }

  predicate AtEnd(l: Lists, k: Cursors)
  {
    k.c == |l.circles| && k.s == |l.sliders| && k.p == |l.spinners|
  }

  datatype Kind = CircleKind | SliderKind | SpinnerKind

  /**
   * The branch `next()` takes: a circle if it is no later than the current
   * slider and spinner, else a slider if it is no later than the current
   * spinner, else a spinner; none when every cursor is at its end.
   */
  function Pick(l: Lists, k: Cursors): (r: Option<Kind>)
    requires InRange(l, k)
    ensures r.None? <==> AtEnd(l, k)
  {
    if k.c < |l.circles|
      && (k.s == |l.sliders| || l.circles[k.c].time <= l.sliders[k.s].time)
      && (k.p == |l.spinners| || l.circles[k.c].time <= l.spinners[k.p].start)
    then Some(CircleKind)
    else if k.s < |l.sliders| && (k.p == |l.spinners| || l.sliders[k.s].time <= l.spinners[k.p].start)
    then Some(SliderKind)
    else if k.p < |l.spinners| then Some(SpinnerKind)
    else None
  }

  /** The cursors after taking an object of kind `kind`. */
  function Advance(k: Cursors, kind: Kind): Cursors
  {
    match kind
    case CircleKind => k.(c := k.c + 1)
    case SliderKind => k.(s := k.s + 1)
    case SpinnerKind => k.(p := k.p + 1)
  }

  /** The object under the cursor of kind `kind`. */
  function Head(l: Lists, k: Cursors, kind: Kind): Hitobject
    requires InRange(l, k) && Pick(l, k) == Some(kind)
  {
    match kind
    case CircleKind => CircleObject(l.circles[k.c])
    case SliderKind => SliderObject(l.sliders[k.s])
    case SpinnerKind => SpinnerObject(l.spinners[k.p])
  }

  function Remaining(l: Lists, k: Cursors): nat
    requires InRange(l, k)
  {
    (|l.circles| - k.c) + (|l.sliders| - k.s) + (|l.spinners| - k.p)
  }

  /** Every object still ahead of the cursors, in the order `next()` hands them out. */
  function Merge(l: Lists, k: Cursors): seq<Hitobject>
    requires InRange(l, k)
    decreases Remaining(l, k)
  {
    match Pick(l, k)
    case None => []
    case Some(kind) => [Head(l, k, kind)] + Merge(l, Advance(k, kind))
  }

  /** One call hands out exactly one of the remaining objects. */
  lemma {:induction false} MergeLength(l: Lists, k: Cursors)
    requires InRange(l, k)
    ensures |Merge(l, k)| == Remaining(l, k)
    decreases Remaining(l, k)
  {
    match Pick(l, k)
    case None =>
    case Some(kind) => MergeLength(l, Advance(k, kind));
  }

  /** The time an object is ordered by: a circle's or slider's time, a spinner's start. */
  function Key(h: Hitobject): int
  {
    match h
    case CircleObject(c) => c.time
    case SliderObject(s) => s.time
    case SpinnerObject(p) => p.start
  }

  predicate CirclesSorted(cs: seq<Hitcircle>)
  {
    forall i, j :: 0 <= i <= j < |cs| ==> cs[i].time <= cs[j].time
  }

  predicate SlidersSorted(ss: seq<Slider>)
  {
    forall i, j :: 0 <= i <= j < |ss| ==> ss[i].time <= ss[j].time
  }

  predicate SpinnersSorted(ps: seq<Spinner>)
  {
    forall i, j :: 0 <= i <= j < |ps| ==> ps[i].start <= ps[j].start
  }

  predicate Sorted(l: Lists)
  {
    CirclesSorted(l.circles) && SlidersSorted(l.sliders) && SpinnersSorted(l.spinners)
  }

  /** Every object under a cursor is at or after `b`. */
  predicate HeadsFrom(l: Lists, k: Cursors, b: int)
    requires InRange(l, k)
  {
    && (k.c < |l.circles| ==> l.circles[k.c].time >= b)
    && (k.s < |l.sliders| ==> l.sliders[k.s].time >= b)
    && (k.p < |l.spinners| ==> l.spinners[k.p].start >= b)
  }

  /** The object handed out is the earliest of those under the cursors. */
  lemma PickIsEarliest(l: Lists, k: Cursors)
    requires InRange(l, k) && Pick(l, k).Some?
    ensures HeadsFrom(l, k, Key(Head(l, k, Pick(l, k).value)))
  {
  }

  /** With sorted lists, if all heads are at or after `b`, so is everything still to come. */
  lemma {:induction false} MergeFrom(l: Lists, k: Cursors, b: int)
    requires InRange(l, k) && Sorted(l) && HeadsFrom(l, k, b)
    ensures forall i :: 0 <= i < |Merge(l, k)| ==> Key(Merge(l, k)[i]) >= b
    decreases Remaining(l, k)
  {
    match Pick(l, k)
    case None =>
    case Some(kind) =>
      var k' := Advance(k, kind);
      MergeFrom(l, k', b);
  }

  /** With sorted lists, the merged sequence is in time order. */
  lemma {:induction false} MergeSorted(l: Lists, k: Cursors)
    requires InRange(l, k) && Sorted(l)
    ensures forall i :: 0 < i < |Merge(l, k)| ==> Key(Merge(l, k)[i - 1]) <= Key(Merge(l, k)[i])
    decreases Remaining(l, k)
  {
    match Pick(l, k)
    case None =>
    case Some(kind) =>
      var k' := Advance(k, kind);
      var first := Head(l, k, kind);
      PickIsEarliest(l, k);
      MergeFrom(l, k', Key(first));
      MergeSorted(l, k');
      var m := Merge(l, k);
      assert m == [first] + Merge(l, k');
      forall i | 0 < i < |m|
        ensures Key(m[i - 1]) <= Key(m[i])
      {
        assert m[i] == Merge(l, k')[i - 1];
        if i > 1 {
          assert m[i - 1] == Merge(l, k')[i - 2];
        }
      }
  }

  /** The circles among a sequence of objects, in order (likewise `Sliders` and `Spinners`). */
  function Circles(hs: seq<Hitobject>): seq<Hitcircle>
  {
    if hs == [] then []
    else (if hs[0].CircleObject? then [hs[0].circle] else []) + Circles(hs[1..])
  }

  function Sliders(hs: seq<Hitobject>): seq<Slider>
  {
    if hs == [] then []
    else (if hs[0].SliderObject? then [hs[0].slider] else []) + Sliders(hs[1..])
  }

  function Spinners(hs: seq<Hitobject>): seq<Spinner>
  {
    if hs == [] then []
    else (if hs[0].SpinnerObject? then [hs[0].spinner] else []) + Spinners(hs[1..])
  }

  /** The circles come out in list order, and so do the sliders and the spinners. */
  lemma MergeKeepsOrder(l: Lists, k: Cursors)
    requires InRange(l, k)
    ensures Circles(Merge(l, k)) == l.circles[k.c..]
    ensures Sliders(Merge(l, k)) == l.sliders[k.s..]
    ensures Spinners(Merge(l, k)) == l.spinners[k.p..]
  {
    MergeCircles(l, k);
    MergeSliders(l, k);
    MergeSpinners(l, k);
  }

  lemma {:induction false} MergeCircles(l: Lists, k: Cursors)
    requires InRange(l, k)
    ensures Circles(Merge(l, k)) == l.circles[k.c..]
    decreases Remaining(l, k)
  {
    match Pick(l, k)
    case None =>
    case Some(kind) =>
      var k' := Advance(k, kind);
      MergeCircles(l, k');
      var m := Merge(l, k);
      assert m[1..] == Merge(l, k');
      if kind == CircleKind {
        assert l.circles[k.c..] == [l.circles[k.c]] + l.circles[k.c + 1..];
      }
  }

  lemma {:induction false} MergeSliders(l: Lists, k: Cursors)
    requires InRange(l, k)
    ensures Sliders(Merge(l, k)) == l.sliders[k.s..]
    decreases Remaining(l, k)
  {
    match Pick(l, k)
    case None =>
    case Some(kind) =>
      var k' := Advance(k, kind);
      MergeSliders(l, k');
      var m := Merge(l, k);
      assert m[1..] == Merge(l, k');
      if kind == SliderKind {
        assert l.sliders[k.s..] == [l.sliders[k.s]] + l.sliders[k.s + 1..];
      }
  }

  lemma {:induction false} MergeSpinners(l: Lists, k: Cursors)
    requires InRange(l, k)
    ensures Spinners(Merge(l, k)) == l.spinners[k.p..]
    decreases Remaining(l, k)
  {
    match Pick(l, k)
    case None =>
    case Some(kind) =>
      var k' := Advance(k, kind);
      MergeSpinners(l, k');
      var m := Merge(l, k);
      assert m[1..] == Merge(l, k');
      if kind == SpinnerKind {
        assert l.spinners[k.p..] == [l.spinners[k.p]] + l.spinners[k.p + 1..];
      }
  }

  /** `Hitobject_iterator`: the three lists, the three cursors and what the callback was given. */
  class Iterator {
    const lists: Lists
    var circleIt: nat
    var sliderIt: nat
    var spinnerIt: nat
    /** The objects passed to the callback so far, in call order. */
    var delivered: seq<Hitobject>

    function Position(): Cursors
      reads this
    {
      Cursors(circleIt, sliderIt, spinnerIt)
    }

    predicate Valid()
      reads this
    {
      InRange(lists, Position())
    }

    /** Starts every cursor at the beginning of its list. */
    constructor(bm: Beatmap)
      ensures lists == Lists(bm.circles, bm.sliders, bm.spinners)
      ensures Position() == Cursors(0, 0, 0) && delivered == []
      ensures Valid()
    {
      lists := Lists(bm.circles, bm.sliders, bm.spinners);
      circleIt, sliderIt, spinnerIt := 0, 0, 0;
      delivered := [];
    }

    /**
     * `next()`: false, changing nothing, when every cursor is at its end;
     * otherwise hands the picked object to the callback and advances its cursor.
     */
    method Next() returns (more: bool)
      requires Valid()
      modifies this
      ensures Valid()
      ensures more <==> Pick(lists, old(Position())).Some?
      ensures !more ==> Position() == old(Position()) && delivered == old(delivered)
      ensures more ==>
        var kind := Pick(lists, old(Position())).value;
        && Position() == Advance(old(Position()), kind)
        && delivered == old(delivered) + [Head(lists, old(Position()), kind)]
    {
      if circleIt != |lists.circles|
        && (sliderIt == |lists.sliders| || lists.circles[circleIt].time <= lists.sliders[sliderIt].time)
        && (spinnerIt == |lists.spinners| || lists.circles[circleIt].time <= lists.spinners[spinnerIt].start)
      {
        delivered := delivered + [CircleObject(lists.circles[circleIt])];
        circleIt := circleIt + 1;
        return true;
      }
      if sliderIt != |lists.sliders| && (spinnerIt == |lists.spinners| || lists.sliders[sliderIt].time <= lists.spinners[spinnerIt].start) {
        delivered := delivered + [SliderObject(lists.sliders[sliderIt])];
        sliderIt := sliderIt + 1;
        return true;
      }
      if spinnerIt != |lists.spinners| {
        delivered := delivered + [SpinnerObject(lists.spinners[spinnerIt])];
        spinnerIt := spinnerIt + 1;
        return true;
      }
      return false;
    }

    /** `all()`: calls `next()` until it returns false, delivering everything still ahead. */
    method All()
      requires Valid()
      modifies this
      ensures Valid() && AtEnd(lists, Position())
      ensures delivered == old(delivered) + Merge(lists, old(Position()))
    {
      var more := true;
      while more
        invariant Valid()
        invariant more ==> delivered + Merge(lists, Position()) == old(delivered) + Merge(lists, old(Position()))
        invariant !more ==> AtEnd(lists, Position()) && delivered == old(delivered) + Merge(lists, old(Position()))
        decreases if more then Remaining(lists, Position()) + 1 else 0
      {
        ghost var before := Position();
        more := Next();
        if !more {
          assert Merge(lists, before) == [];
        }
      }
    }
  }

  /**
   * A fresh iterator's `all()` calls the callback once per circle, slider and
   * spinner of the beatmap, in time order when every list is in time order.
   */
  method AllFromStart(bm: Beatmap) returns (it: Iterator)
    ensures |it.delivered| == |bm.circles| + |bm.sliders| + |bm.spinners|
    ensures Circles(it.delivered) == bm.circles
    ensures Sliders(it.delivered) == bm.sliders
    ensures Spinners(it.delivered) == bm.spinners
    ensures Sorted(Lists(bm.circles, bm.sliders, bm.spinners)) ==>
      forall i :: 0 < i < |it.delivered| ==> Key(it.delivered[i - 1]) <= Key(it.delivered[i])
  {
    it := new Iterator(bm);
    it.All();
    var l := Lists(bm.circles, bm.sliders, bm.spinners);
    assert it.delivered == Merge(l, Cursors(0, 0, 0));
    assert l.circles[0..] == bm.circles && l.sliders[0..] == bm.sliders && l.spinners[0..] == bm.spinners;
    MergeLength(l, Cursors(0, 0, 0));
    MergeKeepsOrder(l, Cursors(0, 0, 0));
    if Sorted(l) {
      MergeSorted(l, Cursors(0, 0, 0));
    }
  }
}
