/**
 * The older front end's intervals (src/interval.tsx). Its constructors fill
 * in missing arguments by a truthiness test, so a `0` counts as missing, and
 * `Bounds` takes the domain first: `new Bounds(t)` stores `t` as the domain
 * and leaves both times `undefined` (`None`).
 *
 * The file declares an `IntervalSet` holding only its list; the components
 * that use it call `to_list()` and `time_overlaps(q)` on it, which the model
 * reads as that list and as a filter by time overlap.
 */
module LegacyInterval {
  import opened Js
  import Intervals

  type BoundingBox = Intervals.BoundingBox

  /** `new BoundingBox(x1, x2, y1, y2)`: an argument that is missing or zero
      takes the full frame's value. */
  function NewBoundingBox(x1: Option<real>, x2: Option<real>, y1: Option<real>, y2: Option<real>): (b: BoundingBox)
    ensures TruthyNum(x1) ==> b.x1 == x1.value
    ensures TruthyNum(x2) ==> b.x2 == x2.value
    ensures TruthyNum(y1) ==> b.y1 == y1.value
    ensures TruthyNum(y2) ==> b.y2 == y2.value
    ensures !TruthyNum(x1) ==> b.x1 == Intervals.FullFrame.x1
    ensures !TruthyNum(x2) ==> b.x2 == Intervals.FullFrame.x2
    ensures !TruthyNum(y1) ==> b.y1 == Intervals.FullFrame.y1
    ensures !TruthyNum(y2) ==> b.y2 == Intervals.FullFrame.y2
  {
    Intervals.BoundingBox(if TruthyNum(x1) then x1.value else 0.0, if TruthyNum(x2) then x2.value else 1.0,
                          if TruthyNum(y1) then y1.value else 0.0, if TruthyNum(y2) then y2.value else 1.0)
  }

  /** No arguments give the full frame; a zero right or bottom edge is
      replaced by 1, while a zero left or top edge stays 0. */
  lemma BoundingBoxDefaults()
    ensures NewBoundingBox(None, None, None, None) == Intervals.FullFrame
    ensures NewBoundingBox(Some(0.0), Some(0.0), Some(0.0), Some(0.0)) == Intervals.FullFrame
  {
  }

  datatype Bounds = Bounds(domain: Option<Json>, t1: Option<real>, t2: Option<real>, bbox: BoundingBox)

  /** `new Bounds(domain, t1, t2, bbox)`: a missing or zero `t2` is `t1`, a
      missing box the full frame; `t1 <= t2` is not checked. */
  function NewBounds(domain: Option<Json>, t1: Option<real>, t2: Option<real>, bbox: Option<BoundingBox>): (b: Bounds)
    ensures b.domain == domain && b.t1 == t1
    ensures b.t2 == if TruthyNum(t2) then t2 else t1
    ensures b.bbox == if bbox.Some? then bbox.value else Intervals.FullFrame
  {
    Bounds(domain, t1, if TruthyNum(t2) then t2 else t1,
           if bbox.Some? then bbox.value else NewBoundingBox(None, None, None, None))
  }

  /** `new Bounds(t)` holds no time at all: `t` is its domain. */
  lemma OneArgumentBounds(t: real)
    ensures var b := NewBounds(Some(Num(t)), None, None, None);
            b.t1 == None && b.t2 == None && b.domain == Some(Num(t)) && b.bbox == Intervals.FullFrame
  {
  }

  /** A start after the end is stored as it is. */
  lemma BoundsUnordered(domain: Option<Json>, t1: real, t2: real)
    requires t2 != 0.0
    ensures NewBounds(domain, Some(t1), Some(t2), None).t1 == Some(t1)
    ensures NewBounds(domain, Some(t1), Some(t2), None).t2 == Some(t2)
  {
  }

  /** `new Interval(bounds, draw_type, metadata)`, stored as given. */
  datatype Interval<P> = Interval(bounds: Bounds, drawType: Option<P>, metadata: Option<Json>)

  /** `new IntervalSet(intervals)`: the list, as given. */
  type IntervalSet<P> = seq<Interval<P>>

  /** `a < b` and `a > b` on possibly undefined numbers: a comparison with
      `undefined` is false. */
  predicate Less(a: Option<real>, b: Option<real>)
  {
    a.Some? && b.Some? && a.value < b.value
  }

  /** Time overlap of closed spans, false when a time is undefined. */
  predicate TimeOverlap(a: Bounds, b: Bounds)
  {
    a.t1.Some? && a.t2.Some? && b.t1.Some? && b.t2.Some? && a.t1.value <= b.t2.value && a.t2.value >= b.t1.value
  }

  /** `set.time_overlaps(q)`. */
  function TimeOverlaps<P>(s: IntervalSet<P>, q: Bounds): (r: IntervalSet<P>)
    ensures |r| <= |s|
    ensures forall i :: 0 <= i < |r| ==> TimeOverlap(r[i].bounds, q) && r[i] in s
    ensures forall i :: 0 <= i < |s| && TimeOverlap(s[i].bounds, q) ==> s[i] in r
  {
    if s == [] then []
    else if TimeOverlap(s[0].bounds, q) then [s[0]] + TimeOverlaps(s[1..], q)
    else TimeOverlaps(s[1..], q)
  }

  /** A query without times meets nothing. */
  lemma NoTimesNoOverlap<P>(s: IntervalSet<P>, q: Bounds)
    requires q.t1.None?
    ensures TimeOverlaps(s, q) == []
  {
  }
}
