/**
 * The interval sets the front end is built on (the rekall library's `Bounds`,
 * `Interval` and `IntervalSet`, which the front end imports). An interval set is
 * an ordered list of intervals; each interval carries an identity, so that
 * "remove this interval" means the same object and not an equal one.
 *
 * The library is not part of this model; its operations are written here from
 * its documented contract: `add` appends, `remove` drops that interval (a
 * non-member is a no-op), `time_overlaps` keeps, in order, the intervals whose
 * closed time span meets the query's.
 */
module Intervals {

  /** A box in frame-relative coordinates. */
  datatype BoundingBox = BoundingBox(x1: real, x2: real, y1: real, y2: real)

  /** The whole frame: the box `new Bounds(t)` gets when none is given. */
  const FullFrame := BoundingBox(0.0, 1.0, 0.0, 1.0)

  datatype Bounds = Bounds(t1: real, t2: real, bbox: BoundingBox)

  /** `new Bounds(t)`: the instant `t` over the whole frame. */
  function Instant(t: real): (b: Bounds)
    ensures b.t1 == b.t2 == t
  {
    Bounds(t, t, FullFrame)
  }

  /** Closed-interval overlap: touching end points count. */
  predicate TimeOverlap(a: Bounds, b: Bounds)
  {
    a.t1 <= b.t2 && a.t2 >= b.t1
  }

  datatype Interval<P> = Interval(id: nat, bounds: Bounds, data: P)

  type IntervalSet<P> = seq<Interval<P>>

  predicate HasId<P>(s: IntervalSet<P>, id: nat)
  {
    exists i :: 0 <= i < |s| && s[i].id == id
  }

  /** `set.add(x)`. */
  function Add<P>(s: IntervalSet<P>, x: Interval<P>): (r: IntervalSet<P>)
    ensures |r| == |s| + 1 && r[..|s|] == s && r[|s|] == x
  {
    s + [x]
  }

  /** `set.remove(x)`: every entry that is the object `x` goes, the rest stay in order. */
  function Remove<P>(s: IntervalSet<P>, id: nat): (r: IntervalSet<P>)
    ensures !HasId(r, id)
    ensures |r| <= |s|
    ensures forall i :: 0 <= i < |r| ==> r[i] in s
    ensures forall i :: 0 <= i < |s| && s[i].id != id ==> s[i] in r
  {
    if s == [] then []
    else if s[0].id == id then Remove(s[1..], id)
    else [s[0]] + Remove(s[1..], id)
  }

  /** `set.time_overlaps(q)`. */
  function TimeOverlaps<P>(s: IntervalSet<P>, q: Bounds): (r: IntervalSet<P>)
    ensures |r| <= |s|
    ensures forall x :: x in r ==> TimeOverlap(x.bounds, q) && x in s
    ensures forall x :: x in s && TimeOverlap(x.bounds, q) ==> x in r
  {
    if s == [] then []
    else if TimeOverlap(s[0].bounds, q) then [s[0]] + TimeOverlaps(s[1..], q)
    else TimeOverlaps(s[1..], q)
  }

  /** Removing what was just added gives the set back, when it was not already a member. */
  lemma {:induction false} RemoveAdded<P>(s: IntervalSet<P>, x: Interval<P>)
    requires !HasId(s, x.id)
    ensures Remove(Add(s, x), x.id) == s
  {
    if s != [] {
      forall i | 0 <= i < |s[1..]| ensures s[1..][i].id != x.id {
        assert s[1..][i] == s[i + 1];
      }
      RemoveAdded(s[1..], x);
      assert Add(s, x)[1..] == Add(s[1..], x);
    }
  }

  /** Removing a non-member changes nothing. */
  lemma {:induction false} RemoveAbsent<P>(s: IntervalSet<P>, id: nat)
    requires !HasId(s, id)
    ensures Remove(s, id) == s
  {
    if s != [] {
      forall i | 0 <= i < |s[1..]| ensures s[1..][i].id != id {
        assert s[1..][i] == s[i + 1];
      }
      RemoveAbsent(s[1..], id);
    }
  }

  /** Overlap does not depend on the order of its arguments, and an instant
      meets exactly the spans that contain it. */
  lemma OverlapFacts(a: Bounds, b: Bounds, t: real)
    ensures TimeOverlap(a, b) == TimeOverlap(b, a)
    ensures a.t1 <= a.t2 ==> (TimeOverlap(a, Instant(t)) <==> a.t1 <= t <= a.t2)
  {
  }

  /** The query keeps the surviving intervals in their original order: what it
      returns is the set with the non-overlapping intervals crossed out. */
  lemma {:induction false} TimeOverlapsKeepsOrder<P>(s: IntervalSet<P>, q: Bounds, i: nat, j: nat)
    requires i < j < |s| && TimeOverlap(s[i].bounds, q) && TimeOverlap(s[j].bounds, q)
    ensures exists k, l :: 0 <= k < l < |TimeOverlaps(s, q)|
                           && TimeOverlaps(s, q)[k] == s[i] && TimeOverlaps(s, q)[l] == s[j]
  {
    PositionFound(s, q, i);
    PositionFound(s, q, j);
    PositionGrows(s, q, i, j);
  }

  /** Where the `i`-th interval lands in the query's result: the number of
      overlapping intervals before it. */
  function Position<P>(s: IntervalSet<P>, q: Bounds, i: nat): nat
    requires i < |s|
  {
    if i == 0 then 0
    else (if TimeOverlap(s[0].bounds, q) then 1 else 0) + Position(s[1..], q, i - 1)
  }

  lemma {:induction false} PositionFound<P>(s: IntervalSet<P>, q: Bounds, i: nat)
    requires i < |s| && TimeOverlap(s[i].bounds, q)
    ensures Position(s, q, i) < |TimeOverlaps(s, q)| && TimeOverlaps(s, q)[Position(s, q, i)] == s[i]
  {
    TimeOverlapsCons(s, q);
    if i > 0 {
      assert s[1..][i - 1] == s[i];
      PositionFound(s[1..], q, i - 1);
    }
  }

  lemma {:induction false} PositionGrows<P>(s: IntervalSet<P>, q: Bounds, i: nat, j: nat)
    requires i < j < |s| && TimeOverlap(s[i].bounds, q)
    ensures Position(s, q, i) < Position(s, q, j)
  {
    if i > 0 {
      assert s[1..][i - 1] == s[i];
      PositionGrows(s[1..], q, i - 1, j - 1);
    }
  }

  lemma TimeOverlapsCons<P>(s: IntervalSet<P>, q: Bounds)
    requires s != []
    ensures TimeOverlaps(s, q) == (if TimeOverlap(s[0].bounds, q) then [s[0]] else []) + TimeOverlaps(s[1..], q)
  {
    if !TimeOverlap(s[0].bounds, q) {
      assert [] + TimeOverlaps(s[1..], q) == TimeOverlaps(s[1..], q);
    }
  }
}
