/**
 * Pose keypoints (vgridjs/src/keypoints.tsx): a map from keypoint index to the
 * node given for it, and a list of coloured edges between indices. The OpenPose
 * constructor lays out 18 body points, then (if given) hand points, and adds the
 * skeleton's edges for the body, the face and each hand.
 */
module Keypoints {
  import opened Js

  /** An edge as stored: start index, end index, colour (any JSON when decoded). */
  datatype Edge = Edge(start: Option<Json>, end: Option<Json>, color: Option<Json>)

  /** The keypoints by index (an index's node is `undefined` when the input was
      short) and the edges. Every keypoint object built here has the indices
      `0 .. n-1`, so `Object.keys(keypoints).length` is `|nodes|`. */
  datatype Keypoints = Keypoints(nodes: seq<Option<Json>>, edges: seq<Edge>)

  const PoseColor := "rgb(255, 60, 60)"
  const PoseLeftColor := "rgb(23, 166, 250)"
  const FaceColor := "rgb(240, 240, 240)"
  const HandLeftColor := "rgb(233, 255, 49)"
  const HandRightColor := "rgb(95, 231, 118)"

  const PosePoints: nat := 18
  const PosePairs: seq<(int, int)> :=
    [(1, 2), (1, 5), (2, 3), (3, 4), (5, 6), (6, 7), (1, 8), (8, 9), (9, 10), (1, 11), (11, 12),
     (12, 13), (1, 0), (0, 14), (14, 16), (0, 15), (15, 17)]
  const PoseLeft: seq<int> := [2, 3, 4, 8, 9, 10, 14, 16]

  const FacePoints: nat := 68
  /** The face skeleton (63 pairs), kept in four pieces of the source's list. */
  const FacePairs: seq<(int, int)> := FacePairsA + FacePairsB + FacePairsC + FacePairsD
  const FacePairsA: seq<(int, int)> :=
    [(0, 1), (1, 2), (2, 3), (3, 4), (4, 5), (5, 6), (6, 7), (7, 8), (8, 9), (9, 10),
     (10, 11), (11, 12), (12, 13), (13, 14), (14, 15), (15, 16), (17, 18), (18, 19)]
  const FacePairsB: seq<(int, int)> :=
    [(19, 20), (20, 21), (22, 23), (23, 24), (24, 25), (25, 26), (27, 28), (28, 29),
     (29, 30), (31, 32), (32, 33), (33, 34), (34, 35), (36, 37), (37, 38), (38, 39)]
  const FacePairsC: seq<(int, int)> :=
    [(39, 40), (40, 41), (41, 36), (42, 43), (43, 44), (44, 45), (45, 46), (46, 47),
     (47, 42), (48, 49), (49, 50), (50, 51), (51, 52), (52, 53), (53, 54), (54, 55)]
  const FacePairsD: seq<(int, int)> :=
    [(55, 56), (56, 57), (57, 58), (58, 59), (59, 48), (60, 61), (61, 62), (62, 63),
     (63, 64), (64, 65), (65, 66), (66, 67), (67, 60)]

  const HandPoints: nat := 21
  const HandPairs: seq<(int, int)> :=
    [(0, 1), (1, 2), (2, 3), (3, 4), (0, 5), (5, 6), (6, 7), (7, 8), (0, 9), (9, 10),
     (10, 11), (11, 12), (0, 13), (13, 14), (14, 15), (15, 16), (0, 17), (17, 18),
     (18, 19), (19, 20)]

  /** An edge as the OpenPose constructor builds it. */
  function PoseEdge(t: (int, int, string)): Edge
  {
    Edge(Some(Num(t.0 as real)), Some(Num(t.1 as real)), Some(Str(t.2)))
  }

  function EdgesOf(ts: seq<(int, int, string)>): (es: seq<Edge>)
    ensures |es| == |ts| && forall i :: 0 <= i < |ts| ==> es[i] == PoseEdge(ts[i])
  {
    seq(|ts|, i requires 0 <= i < |ts| => PoseEdge(ts[i]))
  }

  /** A body edge is drawn in the left-side colour exactly when left/right
      colouring is on and one of its ends is a left-side point. */
  function BodyColor(showLeftRight: bool, p: (int, int)): string
  {
    if showLeftRight && (p.0 in PoseLeft || p.1 in PoseLeft) then PoseLeftColor else PoseColor
  }

  function BodyTriples(showLeftRight: bool): seq<(int, int, string)>
  {
    seq(|PosePairs|, i requires 0 <= i < |PosePairs| => (PosePairs[i].0, PosePairs[i].1, BodyColor(showLeftRight, PosePairs[i])))
  }

  /** `pairs`, each end shifted by `offset`, in one colour. */
  function Shifted(pairs: seq<(int, int)>, offset: int, color: string): seq<(int, int, string)>
  {
    seq(|pairs|, i requires 0 <= i < |pairs| => (pairs[i].0 + offset, pairs[i].1 + offset, color))
  }

  /** `n` keypoint slots filled from `src` (undefined past its end). */
  function Slots(src: seq<Json>, n: nat): (m: seq<Option<Json>>)
    ensures |m| == n
  {
    seq(n, i requires 0 <= i < n => if i < |src| then Some(src[i]) else None)
  }

  /** Points before the hands: the body's 18 (the face adds none, see below). */
  function HandOffsetAsWritten(left: seq<Json>): int
  {
    PosePoints + (if |left| > 0 then HandPoints else 0)
  }

  /** The keypoints `from_openpose` produces. The face loop's guard
      (`i > FACE_POINTS`, line 90) is false on entry, so no face point is added. */
  function OpenposeNodes(body: seq<Json>, left: seq<Json>, right: seq<Json>): seq<Option<Json>>
  {
    Slots(body, PosePoints)
    + (if |left| > 0 then Slots(left, HandPoints) else [])
    + (if |right| > 0 then Slots(right, HandPoints) else [])
  }

  /** The edges `from_openpose` produces, as (start, end, colour). */
  function OpenposeTriples(showLeftRight: bool, face: seq<Json>, left: seq<Json>, right: seq<Json>): seq<(int, int, string)>
  {
    BodyTriples(showLeftRight)
    + (if |face| > 0 then Shifted(FacePairs, PosePoints, FaceColor) else [])
    + (if |left| > 0 then Shifted(HandPairs, PosePoints, HandLeftColor) else [])
    + (if |right| > 0 then Shifted(HandPairs, HandOffsetAsWritten(left), HandRightColor) else [])
  }

  /** Appends `n` slots filled from `src`, one index at a time. */
  method FillSlots(nodes: seq<Option<Json>>, src: seq<Json>, n: nat) returns (r: seq<Option<Json>>)
    ensures r == nodes + Slots(src, n)
  {
    r := nodes;
    var i := 0;
    while i < n
      invariant 0 <= i <= n
      invariant r == nodes + Slots(src, i)
    {
      var v := if i < |src| then Some(src[i]) else None;
      assert Slots(src, i + 1) == Slots(src, i) + [v];
      r := r + [v];
      i := i + 1;
    }
  }

  /** Appends the edges for `pairs` shifted by `offset`, one pair at a time. */
  method PushShifted(edges: seq<Edge>, pairs: seq<(int, int)>, offset: int, color: string) returns (r: seq<Edge>)
    ensures r == edges + EdgesOf(Shifted(pairs, offset, color))
  {
    r := edges;
    var j := 0;
    while j < |pairs|
      invariant 0 <= j <= |pairs|
      invariant r == edges + EdgesOf(Shifted(pairs[..j], offset, color))
    {
      assert Shifted(pairs[..j + 1], offset, color) == Shifted(pairs[..j], offset, color) + [(pairs[j].0 + offset, pairs[j].1 + offset, color)];
      r := r + [PoseEdge((pairs[j].0 + offset, pairs[j].1 + offset, color))];
      j := j + 1;
    }
    assert pairs[..j] == pairs;
  }

  /** The body's edges, coloured pair by pair. */
  method BodyEdges(showLeftRight: bool) returns (edges: seq<Edge>)
    ensures edges == EdgesOf(BodyTriples(showLeftRight))
  {
    edges := [];
    ghost var ts := BodyTriples(showLeftRight);
    var j := 0;
    while j < |PosePairs|
      invariant 0 <= j <= |PosePairs|
      invariant edges == EdgesOf(ts[..j])
    {
      var color := PoseColor;
      if showLeftRight && (PosePairs[j].0 in PoseLeft || PosePairs[j].1 in PoseLeft) {
        color := PoseLeftColor;
      }
      assert ts[j] == (PosePairs[j].0, PosePairs[j].1, color);
      EdgesOfSnoc(ts, j);
      edges := edges + [PoseEdge((PosePairs[j].0, PosePairs[j].1, color))];
      j := j + 1;
    }
    assert ts[..j] == ts;
  }

  /** One more triple, one more edge. */
  lemma EdgesOfSnoc(ts: seq<(int, int, string)>, j: nat)
    requires j < |ts|
    ensures EdgesOf(ts[..j + 1]) == EdgesOf(ts[..j]) + [PoseEdge(ts[j])]
  {
    assert ts[..j + 1] == ts[..j] + [ts[j]];
    EdgesOfConcat(ts[..j], [ts[j]]);
  }

  lemma EdgesOfConcat(a: seq<(int, int, string)>, b: seq<(int, int, string)>)
    ensures EdgesOf(a + b) == EdgesOf(a) + EdgesOf(b)
  {
  }

  /** `Keypoints.from_openpose(body, show_left_right, face, left_hand, right_hand)`. */
  method FromOpenpose(body: seq<Json>, showLeftRight: bool, face: seq<Json>, left: seq<Json>, right: seq<Json>)
    returns (k: Keypoints)
    ensures k.nodes == OpenposeNodes(body, left, right)
    ensures k.edges == EdgesOf(OpenposeTriples(showLeftRight, face, left, right))
  {
    var nodes := FillSlots([], body, PosePoints);
    assert nodes == Slots(body, PosePoints);
    var edges := BodyEdges(showLeftRight);
    ghost var faceTriples := if |face| > 0 then Shifted(FacePairs, PosePoints, FaceColor) else [];
    if |face| > 0 {
      var len := |nodes|;
      // The face points are never copied: the loop runs while `i > FACE_POINTS`.
      edges := PushShifted(edges, FacePairs, len, FaceColor);
    }
    EdgesOfConcat(BodyTriples(showLeftRight), faceTriples);
    assert edges == EdgesOf(BodyTriples(showLeftRight) + faceTriples);
    // `for (let hand of ['left', 'right'])`, one call per hand.
    nodes, edges := AddHand(nodes, edges, left, HandLeftColor);
    ghost var leftTriples := if |left| > 0 then Shifted(HandPairs, PosePoints, HandLeftColor) else [];
    EdgesOfConcat(BodyTriples(showLeftRight) + faceTriples, leftTriples);
    assert |nodes| == HandOffsetAsWritten(left);
    nodes, edges := AddHand(nodes, edges, right, HandRightColor);
    ghost var rightTriples := if |right| > 0 then Shifted(HandPairs, HandOffsetAsWritten(left), HandRightColor) else [];
    EdgesOfConcat(BodyTriples(showLeftRight) + faceTriples + leftTriples, rightTriples);
    k := Keypoints(nodes, edges);
  }

  /** The body of the hand loop: a non-empty hand adds 21 slots after the
      current keypoints and its 20 edges shifted to them. */
  method AddHand(nodes: seq<Option<Json>>, edges: seq<Edge>, pose: seq<Json>, color: string)
    returns (nodes': seq<Option<Json>>, edges': seq<Edge>)
    ensures |pose| == 0 ==> nodes' == nodes && edges' == edges
    ensures |pose| > 0 ==> nodes' == nodes + Slots(pose, HandPoints)
    ensures |pose| > 0 ==> edges' == edges + EdgesOf(Shifted(HandPairs, |nodes|, color))
  {
    nodes', edges' := nodes, edges;
    if |pose| > 0 {
      var len := |nodes|;
      nodes' := FillSlots(nodes, pose, HandPoints);
      edges' := PushShifted(edges, HandPairs, len, color);
    }
  }

  // ---------------------------------------------------------------------------
  // What the constructor produces.
  // ---------------------------------------------------------------------------

  function HandCount(left: seq<Json>, right: seq<Json>): nat
  {
    (if |left| > 0 then 1 else 0) + (if |right| > 0 then 1 else 0)
  }

  /** 18 body points plus 21 per hand given; 17 body edges, 63 face edges when a
      face is given, 20 per hand. */
  lemma OpenposeCounts(showLeftRight: bool, body: seq<Json>, face: seq<Json>, left: seq<Json>, right: seq<Json>)
    ensures |OpenposeNodes(body, left, right)| == 18 + 21 * HandCount(left, right)
    ensures |OpenposeTriples(showLeftRight, face, left, right)|
            == 17 + (if |face| > 0 then 63 else 0) + 20 * HandCount(left, right)
  {
  }

  /** A body point keeps the node given for it, or `undefined` past the input's end. */
  lemma OpenposeBodyNodes(body: seq<Json>, left: seq<Json>, right: seq<Json>, i: nat)
    requires i < PosePoints
    ensures OpenposeNodes(body, left, right)[i] == if i < |body| then Some(body[i]) else None
  {
  }

  /** Body edge `i` joins the `i`-th pose pair and takes the left-side colour
      exactly when colouring is on and one end is a left-side point; the edges
      after the body are white (face) or the hand's colour. */
  lemma OpenposeColors(showLeftRight: bool, face: seq<Json>, left: seq<Json>, right: seq<Json>, i: nat)
    requires i < |OpenposeTriples(showLeftRight, face, left, right)|
    ensures var t := OpenposeTriples(showLeftRight, face, left, right)[i];
            && (i < 17 ==> (t.0, t.1) == PosePairs[i]
                           && (t.2 == PoseLeftColor <==> showLeftRight && (t.0 in PoseLeft || t.1 in PoseLeft)))
            && (i >= 17 && |face| > 0 && i < 17 + 63 ==> t.2 == FaceColor)
            && ((i >= 17 + (if |face| > 0 then 63 else 0) && |left| > 0 && i < 37 + (if |face| > 0 then 63 else 0))
                ==> t.2 == HandLeftColor)
  {
    var ts := OpenposeTriples(showLeftRight, face, left, right);
    var f := if |face| > 0 then Shifted(FacePairs, PosePoints, FaceColor) else [];
    var l := if |left| > 0 then Shifted(HandPairs, PosePoints, HandLeftColor) else [];
    var r := if |right| > 0 then Shifted(HandPairs, HandOffsetAsWritten(left), HandRightColor) else [];
    assert ts == BodyTriples(showLeftRight) + f + l + r;
    if i < 17 {
      assert ts[i] == BodyTriples(showLeftRight)[i];
    } else if i < 17 + |f| {
      assert ts[i] == f[i - 17];
    } else if i < 17 + |f| + |l| {
      assert ts[i] == l[i - 17 - |f|];
    }
  }

  /** The face edges point past the last keypoint: as written, a face makes
      `from_openpose` return edges whose ends have no keypoint (the last face
      pair, (67, 60), becomes (85, 78) while at most 60 points exist). */
  lemma FaceEdgesDangle(showLeftRight: bool, body: seq<Json>, face: seq<Json>, left: seq<Json>, right: seq<Json>)
    requires |face| > 0
    ensures var ts := OpenposeTriples(showLeftRight, face, left, right);
            exists i :: 0 <= i < |ts| && ts[i].0 >= |OpenposeNodes(body, left, right)|
  {
    var ts := OpenposeTriples(showLeftRight, face, left, right);
    var f := Shifted(FacePairs, PosePoints, FaceColor);
    assert ts == BodyTriples(showLeftRight) + f
                 + (if |left| > 0 then Shifted(HandPairs, PosePoints, HandLeftColor) else [])
                 + (if |right| > 0 then Shifted(HandPairs, HandOffsetAsWritten(left), HandRightColor) else []);
    assert |FacePairsA + FacePairsB + FacePairsC| == 50;
    assert FacePairs[62] == FacePairsD[12] == (67, 60);
    assert ts[17 + 62] == f[62] == (85, 78, FaceColor);
  }

  // ---------------------------------------------------------------------------
  // The constructor as intended: the face loop runs `i < FACE_POINTS`.
  // ---------------------------------------------------------------------------

  function IntendedNodes(body: seq<Json>, face: seq<Json>, left: seq<Json>, right: seq<Json>): seq<Option<Json>>
  {
    Slots(body, PosePoints)
    + (if |face| > 0 then Slots(face, FacePoints) else [])
    + (if |left| > 0 then Slots(left, HandPoints) else [])
    + (if |right| > 0 then Slots(right, HandPoints) else [])
  }

  function IntendedTriples(showLeftRight: bool, face: seq<Json>, left: seq<Json>, right: seq<Json>): seq<(int, int, string)>
  {
    var faceAt := PosePoints;
    var leftAt := faceAt + (if |face| > 0 then FacePoints else 0);
    var rightAt := leftAt + (if |left| > 0 then HandPoints else 0);
    BodyTriples(showLeftRight)
    + (if |face| > 0 then Shifted(FacePairs, faceAt, FaceColor) else [])
    + (if |left| > 0 then Shifted(HandPairs, leftAt, HandLeftColor) else [])
    + (if |right| > 0 then Shifted(HandPairs, rightAt, HandRightColor) else [])
  }

  predicate PairsWithin(pairs: seq<(int, int)>, n: int)
  {
    forall i :: 0 <= i < |pairs| ==> 0 <= pairs[i].0 < n && 0 <= pairs[i].1 < n
  }

  predicate TriplesWithin(ts: seq<(int, int, string)>, lo: int, hi: int)
  {
    forall i :: 0 <= i < |ts| ==> lo <= ts[i].0 < hi && lo <= ts[i].1 < hi
  }

  lemma ShiftedWithin(pairs: seq<(int, int)>, n: int, offset: int, color: string)
    requires PairsWithin(pairs, n)
    ensures TriplesWithin(Shifted(pairs, offset, color), offset, offset + n)
  {
  }

  lemma PairsWithinConcat(a: seq<(int, int)>, b: seq<(int, int)>, n: int)
    requires PairsWithin(a, n) && PairsWithin(b, n)
    ensures PairsWithin(a + b, n)
  {
  }

  lemma FacePairsAWithin() ensures PairsWithin(FacePairsA, FacePoints) { }
  lemma FacePairsBWithin() ensures PairsWithin(FacePairsB, FacePoints) { }
  lemma FacePairsCWithin() ensures PairsWithin(FacePairsC, FacePoints) { }
  lemma FacePairsDWithin() ensures PairsWithin(FacePairsD, FacePoints) { }

  /** Every pair of the three skeleton tables joins points of its own part. */
  lemma PairTablesWithin()
    ensures PairsWithin(PosePairs, PosePoints)
    ensures PairsWithin(FacePairs, FacePoints)
    ensures PairsWithin(HandPairs, HandPoints)
  {
    FacePairsAWithin();
    FacePairsBWithin();
    FacePairsCWithin();
    FacePairsDWithin();
    PairsWithinConcat(FacePairsA, FacePairsB, FacePoints);
    PairsWithinConcat(FacePairsA + FacePairsB, FacePairsC, FacePoints);
    PairsWithinConcat(FacePairsA + FacePairsB + FacePairsC, FacePairsD, FacePoints);
  }

  /** With the face loop as intended, every edge joins two existing keypoints,
      whatever parts are given. */
  lemma IntendedEdgesHaveNodes(showLeftRight: bool, body: seq<Json>, face: seq<Json>, left: seq<Json>, right: seq<Json>)
    ensures TriplesWithin(IntendedTriples(showLeftRight, face, left, right), 0, |IntendedNodes(body, face, left, right)|)
  {
    var n := |IntendedNodes(body, face, left, right)|;
    var faceAt := PosePoints;
    var leftAt := faceAt + (if |face| > 0 then FacePoints else 0);
    var rightAt := leftAt + (if |left| > 0 then HandPoints else 0);
    assert n == rightAt + (if |right| > 0 then HandPoints else 0);
    var b := BodyTriples(showLeftRight);
    var f := if |face| > 0 then Shifted(FacePairs, faceAt, FaceColor) else [];
    var l := if |left| > 0 then Shifted(HandPairs, leftAt, HandLeftColor) else [];
    var r := if |right| > 0 then Shifted(HandPairs, rightAt, HandRightColor) else [];
    assert TriplesWithin(b, 0, n) by {
      PairTablesWithin();
      assert TriplesWithin(b, 0, PosePoints);
    }
    assert TriplesWithin(f, 0, n) by {
      if |face| > 0 {
        PairTablesWithin();
        ShiftedWithin(FacePairs, FacePoints, faceAt, FaceColor);
        TriplesWithinWiden(f, faceAt, faceAt + FacePoints, 0, n);
      }
    }
    assert TriplesWithin(l, 0, n) by {
      if |left| > 0 {
        PairTablesWithin();
        ShiftedWithin(HandPairs, HandPoints, leftAt, HandLeftColor);
        TriplesWithinWiden(l, leftAt, leftAt + HandPoints, 0, n);
      }
    }
    assert TriplesWithin(r, 0, n) by {
      if |right| > 0 {
        PairTablesWithin();
        ShiftedWithin(HandPairs, HandPoints, rightAt, HandRightColor);
        TriplesWithinWiden(r, rightAt, rightAt + HandPoints, 0, n);
      }
    }
    TriplesWithinConcat(b, f, 0, n);
    TriplesWithinConcat(b + f, l, 0, n);
    TriplesWithinConcat(b + f + l, r, 0, n);
    assert IntendedTriples(showLeftRight, face, left, right) == b + f + l + r;
  }

  lemma TriplesWithinWiden(ts: seq<(int, int, string)>, lo: int, hi: int, lo': int, hi': int)
    requires TriplesWithin(ts, lo, hi) && lo' <= lo && hi <= hi'
    ensures TriplesWithin(ts, lo', hi')
  {
  }

  lemma TriplesWithinConcat(a: seq<(int, int, string)>, b: seq<(int, int, string)>, lo: int, hi: int)
    requires TriplesWithin(a, lo, hi) && TriplesWithin(b, lo, hi)
    ensures TriplesWithin(a + b, lo, hi)
  {
  }

  /** `Keypoints.from_facelandmarks` is not implemented: it always throws. */
  function FromFaceLandmarks(facePoints: seq<Json>): (r: Result<Keypoints>)
    ensures r.Err? && r.error == Thrown("Not yet implemented")
  {
    Err(Thrown("Not yet implemented"))
  }
}
