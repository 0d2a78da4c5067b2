/**
 * The older front end's track editor (src/views/Timeline.jsx): a group of
 * tracks (clips of one video, each a frame range with optional gender,
 * topics and identity) edited by keys. Every editing key first saves a deep
 * copy of the tracks on a small undo stack; `z` brings the last copy back.
 * Keys act on the one track under the play time (`g` next gender, `m` merge
 * into the previous track, `n` split at the play time, `d` delete); `i` marks
 * the start of a new track and, pressed again, inserts it, trimming the
 * tracks it overlaps; Enter jumps to the next (Shift: previous) track; `r`
 * toggles normal playback speed.
 */
module TrackEditor {
  import opened Js

  datatype Track = Track(video: int, minFrame: int, maxFrame: int,
                         genderId: Option<int>, topics: Option<seq<int>>, identity: Option<int>)

  const MaxUndoStackSize: nat := 10

  /** The frame shown at play time `t`, `Math.round(t * fps)`. */
  function FrameAt(t: real, fps: real): (f: int)
    ensures t * fps - 0.5 < f as real <= t * fps + 0.5
  {
    Round(t * fps)
  }

  // ---------------------------------------------------------------------------
  // The snapshot stack.
  // ---------------------------------------------------------------------------

  /** `_pushState`: the snapshot goes on top, and the oldest one is dropped
      once there are more than ten. */
  function Pushed(stack: seq<seq<Track>>, snapshot: seq<Track>): (r: seq<seq<Track>>)
    ensures |stack| < MaxUndoStackSize ==> r == stack + [snapshot]
    ensures |stack| >= MaxUndoStackSize ==> r == stack[1..] + [snapshot]
  {
    var s := stack + [snapshot];
    assert |stack| > 0 ==> s[1..] == stack[1..] + [snapshot];
    if |s| > MaxUndoStackSize then s[1..] else s
  }

  /** The stack never holds more than ten snapshots, and the newest is on
      top. */
  lemma PushedBounded(stack: seq<seq<Track>>, snapshot: seq<Track>)
    requires |stack| <= MaxUndoStackSize
    ensures var r := Pushed(stack, snapshot);
            |r| <= MaxUndoStackSize && r != [] && r[|r| - 1] == snapshot
  {
  }

  // ---------------------------------------------------------------------------
  // Edits of one track.
  // ---------------------------------------------------------------------------

  /** `m` on track `i`: the previous track is extended to track `i`'s end and
      track `i` removed. */
  function Merged(es: seq<Track>, i: nat): (r: seq<Track>)
    requires 0 < i < |es|
    ensures |r| == |es| - 1
    ensures r[i - 1] == es[i - 1].(maxFrame := es[i].maxFrame)
    ensures forall j :: 0 <= j < i - 1 ==> r[j] == es[j]
    ensures forall j :: i <= j < |r| ==> r[j] == es[j + 1]
  {
    es[..i - 1] + [es[i - 1].(maxFrame := es[i].maxFrame)] + es[i + 1..]
  }

  /** `n` on track `i` at `frame`: the track ends at `frame` and a copy of it
      without topics starts there, right after it. */
  function SplitAt(es: seq<Track>, i: nat, frame: int): (r: seq<Track>)
    requires i < |es|
    ensures |r| == |es| + 1
    ensures r[i] == es[i].(maxFrame := frame)
    ensures r[i + 1] == es[i].(minFrame := frame, topics := Some([]))
    ensures forall j :: 0 <= j < i ==> r[j] == es[j]
    ensures forall j :: i + 1 < j < |r| ==> r[j] == es[j - 1]
  {
    es[..i] + [es[i].(maxFrame := frame), es[i].(minFrame := frame, topics := Some([]))] + es[i + 1..]
  }

  /** `d` on track `i`. */
  function Deleted(es: seq<Track>, i: nat): (r: seq<Track>)
    requires i < |es|
    ensures |r| == |es| - 1
    ensures forall j :: 0 <= j < i ==> r[j] == es[j]
    ensures forall j :: i <= j < |r| ==> r[j] == es[j + 1]
  {
    es[..i] + es[i + 1..]
  }

  /** `_.indexOf(keys, g)`: the first position of `g`, or -1. */
  function IndexOf(keys: seq<int>, g: Option<int>): (r: int)
    ensures -1 <= r < |keys|
    ensures r >= 0 ==> g == Some(keys[r]) && forall j :: 0 <= j < r ==> keys[j] != g.value
    ensures r == -1 ==> g.None? || g.value !in keys
  {
    if g.None? || keys == [] then -1
    else if keys[0] == g.value then 0
    else
      var r := IndexOf(keys[1..], g);
      if r == -1 then -1 else r + 1
  }

  predicate Increasing(keys: seq<int>)
  {
    forall i, j :: 0 <= i < j < |keys| ==> keys[i] < keys[j]
  }

  /** `g`: the gender after the track's in ascending key order, wrapping
      round; a track without a known gender gets the first; with no genders
      the index is `NaN` and the gender becomes `undefined`. The keys are
      taken in ascending order, which is how integer-like object keys
      enumerate. */
  function NextGender(keys: seq<int>, g: Option<int>): (r: Option<int>)
    requires Increasing(keys)
    ensures keys == [] ==> r == None
    ensures keys != [] && (g.None? || g.value !in keys || g.value == keys[|keys| - 1]) ==> r == Some(keys[0])
    ensures g.Some? && g.value in keys && g.value != keys[|keys| - 1] ==>
              && r.Some? && r.value in keys && g.value < r.value
              && forall k :: k in keys && g.value < k ==> r.value <= k
  {
    if keys == [] then None
    else
      // `(i + 1) % keys.length` with `i + 1` in `[0, keys.length]`
      var i := IndexOf(keys, g);
      if i == -1 then Some(keys[0])
      else if 0 <= i && i + 1 < |keys| then
        NextKey(keys, i);
        Some(keys[i + 1])
      else Some(keys[0])
  }

  lemma NextKey(keys: seq<int>, i: nat)
    requires Increasing(keys) && i + 1 < |keys|
    ensures forall k :: k in keys && keys[i] < k ==> keys[i + 1] <= k
  {
    forall k | k in keys && keys[i] < k ensures keys[i + 1] <= k {
      var j :| 0 <= j < |keys| && keys[j] == k;
      assert i < j;
    }
  }

  /** Starting from the first gender, pressing `g` `n` times gives the
      `n`-th, and pressing it once per gender comes back to the first. */
  lemma {:induction false} GenderCycle(keys: seq<int>, n: nat)
    requires Increasing(keys) && 0 < |keys| && n <= |keys|
    ensures Iterate(keys, Some(keys[0]), n) == Some(if n < |keys| then keys[n] else keys[0])
  {
    if n > 0 {
      GenderCycle(keys, n - 1);
      IndexOfDistinct(keys, n - 1);
    }
  }

  lemma IndexOfDistinct(keys: seq<int>, m: nat)
    requires Increasing(keys) && m < |keys|
    ensures IndexOf(keys, Some(keys[m])) == m
  {
    var r := IndexOf(keys, Some(keys[m]));
    assert r >= 0 && keys[r] == keys[m];
  }

  /** `g` pressed `n` times. */
  function Iterate(keys: seq<int>, g: Option<int>, n: nat): Option<int>
    requires Increasing(keys)
  {
    if n == 0 then g else NextGender(keys, Iterate(keys, g, n - 1))
  }

  // ---------------------------------------------------------------------------
  // Inserting a new track with `i`.
  // ---------------------------------------------------------------------------

  /** How an existing track lies against the new one `[start, end]`, in the
      order the cases are checked. */
  datatype Overlap = EndsInside | StartsInside | Encloses | Covered | Apart

  function Classify(c: Track, start: int, end: int): Overlap
  {
    if c.minFrame <= start && start <= c.maxFrame && c.maxFrame <= end then EndsInside
    else if start <= c.minFrame && c.minFrame <= end && end <= c.maxFrame then StartsInside
    else if c.minFrame <= start && end <= c.maxFrame then Encloses
    else if start <= c.minFrame && c.maxFrame <= end then Covered
    else Apart
  }

  /** An existing track after the in-place trimming: cut back to the new
      track's start, or moved up to its end; an enclosing track keeps its
      first part. */
  function Trimmed(c: Track, start: int, end: int): (t: Track)
    ensures Classify(c, start, end) in {EndsInside, Encloses} ==> t == c.(maxFrame := start)
    ensures Classify(c, start, end) == StartsInside ==> t == c.(minFrame := end)
    ensures Classify(c, start, end) in {Covered, Apart} ==> t == c
  {
    match Classify(c, start, end)
    case EndsInside => c.(maxFrame := start)
    case StartsInside => c.(minFrame := end)
    case Encloses => c.(maxFrame := start)
    case _ => c
  }

  /** The tracks kept, trimmed, in order; `dropCovered` says whether covered
      tracks are deleted (as intended) or stay (as written: `splice(i, -1)`
      deletes nothing). */
  function Kept(es: seq<Track>, start: int, end: int, dropCovered: bool): (r: seq<Track>)
    ensures |r| <= |es|
  {
    if es == [] then []
    else
      var c := es[|es| - 1];
      Kept(es[..|es| - 1], start, end, dropCovered)
      + (if dropCovered && Classify(c, start, end) == Covered then [] else [Trimmed(c, start, end)])
  }

  /** The second parts of the enclosing tracks, in order: copies starting at
      the new track's end. */
  function Added(es: seq<Track>, start: int, end: int): (r: seq<Track>)
    ensures |r| <= |es|
  {
    if es == [] then []
    else
      var c := es[|es| - 1];
      Added(es[..|es| - 1], start, end) + (if Classify(c, start, end) == Encloses then [c.(minFrame := end)] else [])
  }

  /** The track `i` inserts: the group's video, the marked frames, nothing
      else. */
  function NewTrack(video: int, start: int, end: int): (t: Track)
    ensures t.minFrame == start && t.maxFrame == end && t.video == video
    ensures t.genderId.None? && t.topics.None? && t.identity.None?
  {
    Track(video, start, end, None, None, None)
  }

  predicate SortedByMin(s: seq<Track>)
  {
    forall i, j :: 0 <= i < j < |s| ==> s[i].minFrame <= s[j].minFrame
  }

  function InsertByMin(x: Track, s: seq<Track>): (r: seq<Track>)
    requires SortedByMin(s)
    ensures SortedByMin(r) && multiset(r) == multiset(s) + multiset{x}
  {
    if s == [] then [x]
    else if x.minFrame < s[0].minFrame then [x] + s
    else
      var t := InsertByMin(x, s[1..]);
      ConsSorted(s, x, t);
      [s[0]] + t
  }

  /** Putting the head of `s` back in front of `x` inserted into the rest. */
  lemma ConsSorted(s: seq<Track>, x: Track, t: seq<Track>)
    requires s != [] && SortedByMin(s) && s[0].minFrame <= x.minFrame
    requires SortedByMin(t) && multiset(t) == multiset(s[1..]) + multiset{x}
    ensures SortedByMin([s[0]] + t) && multiset([s[0]] + t) == multiset(s) + multiset{x}
  {
    forall k | 0 <= k < |t| ensures s[0].minFrame <= t[k].minFrame {
      assert t[k] in multiset(t);
      if t[k] != x {
        assert t[k] in s[1..];
      }
    }
    assert s == [s[0]] + s[1..];
  }

  /** `_.sortBy(elements, ['min_frame'])`: ordered by first frame, with
      earlier tracks first among equal first frames. */
  function SortByMin(s: seq<Track>): (r: seq<Track>)
    ensures SortedByMin(r) && multiset(r) == multiset(s)
  {
    if s == [] then []
    else
      assert s == s[..|s| - 1] + [s[|s| - 1]];
      InsertByMin(s[|s| - 1], SortByMin(s[..|s| - 1]))
  }

  /** The tracks after the second `i`. */
  function AfterInsert(es: seq<Track>, start: int, end: int, dropCovered: bool): (r: seq<Track>)
    requires es != []
    ensures SortedByMin(r)
    ensures multiset(r) == multiset(Kept(es, start, end, dropCovered) + Added(es, start, end) + [NewTrack(es[0].video, start, end)])
  {
    SortByMin(Kept(es, start, end, dropCovered) + Added(es, start, end) + [NewTrack(es[0].video, start, end)])
  }

  /** A track kept by the as-written insertion is a member of `Kept`. */
  lemma {:induction false} CoveredKept(es: seq<Track>, start: int, end: int, i: nat)
    requires i < |es| && Classify(es[i], start, end) == Covered
    ensures es[i] in Kept(es, start, end, false)
  {
    var init := es[..|es| - 1];
    if i < |es| - 1 {
      assert init[i] == es[i];
      CoveredKept(init, start, end, i);
    }
  }

  /** As written, a track lying wholly inside the new one survives the
      insertion unchanged, overlapping the new track. */
  lemma CoveredTrackSurvives(es: seq<Track>, start: int, end: int, i: nat)
    requires i < |es| && start <= es[i].minFrame && es[i].maxFrame <= end
    requires es[i].minFrame != start && es[i].maxFrame != end
    ensures es[i] in AfterInsert(es, start, end, false)
  {
    assert Classify(es[i], start, end) == Covered;
    CoveredKept(es, start, end, i);
    var all := Kept(es, start, end, false) + Added(es, start, end) + [NewTrack(es[0].video, start, end)];
    assert es[i] in multiset(all);
  }

  /** Every track the intended insertion keeps ends by the new track's start
      or starts from its end. */
  lemma {:induction false} KeptClear(es: seq<Track>, start: int, end: int)
    requires start <= end
    ensures forall t :: t in Kept(es, start, end, true) ==> t.maxFrame <= start || t.minFrame >= end
  {
    if es != [] {
      KeptClear(es[..|es| - 1], start, end);
    }
  }

  lemma {:induction false} AddedClear(es: seq<Track>, start: int, end: int)
    ensures forall t :: t in Added(es, start, end) ==> t.minFrame == end
  {
    if es != [] {
      AddedClear(es[..|es| - 1], start, end);
    }
  }

  /** With the covered tracks deleted, the new track is the only one that
      reaches into `(start, end)`: the others end by `start` or begin at
      `end` or later, and the new track is there. */
  lemma InsertClears(es: seq<Track>, start: int, end: int)
    requires es != [] && start <= end
    ensures NewTrack(es[0].video, start, end) in AfterInsert(es, start, end, true)
    ensures forall t :: t in AfterInsert(es, start, end, true) && t != NewTrack(es[0].video, start, end) ==>
              t.maxFrame <= start || t.minFrame >= end
  {
    var kept := Kept(es, start, end, true);
    var added := Added(es, start, end);
    var nt := NewTrack(es[0].video, start, end);
    var r := AfterInsert(es, start, end, true);
    KeptClear(es, start, end);
    AddedClear(es, start, end);
    assert nt in multiset(kept + added + [nt]);
    forall t | t in r && t != nt ensures t.maxFrame <= start || t.minFrame >= end {
      assert t in multiset(kept + added + [nt]);
      assert t in kept + added + [nt];
    }
  }

  /** The indices of the tracks lying inside the new one, ascending: what
      the second `i` lists in `to_delete`. */
  function CoveredIndices(es: seq<Track>, start: int, end: int): (r: seq<nat>)
    ensures forall k :: 0 <= k < |r| ==> r[k] < |es| && Classify(es[r[k]], start, end) == Covered
    ensures forall i :: 0 <= i < |es| && Classify(es[i], start, end) == Covered ==> i in r
  {
    if es == [] then []
    else
      var n := |es| - 1;
      CoveredIndices(es[..n], start, end) + (if Classify(es[n], start, end) == Covered then [n] else [])
  }

  /** The trimming loop of the second `i`, as written: every track is kept,
      trimmed; the enclosing ones also give a second part; the covered ones
      are listed for deletion, but `splice(i, -1)` removes none of them. */
  method CutAround(es: seq<Track>, start: int, end: int) returns (kept: seq<Track>, toAdd: seq<Track>, toDelete: seq<nat>)
    ensures kept == Kept(es, start, end, false) && toAdd == Added(es, start, end)
    ensures toDelete == CoveredIndices(es, start, end)
  {
    kept := [];
    toAdd := [];
    toDelete := [];
    for n := 0 to |es|
      invariant kept == Kept(es[..n], start, end, false) && toAdd == Added(es[..n], start, end)
      invariant toDelete == CoveredIndices(es[..n], start, end)
    {
      assert es[..n + 1][..n] == es[..n];
      var c := es[n];
      var o := Classify(c, start, end);
      if o == Encloses {
        toAdd := toAdd + [c.(minFrame := end)];
      }
      if o == Covered {
        toDelete := toDelete + [n];
      }
      kept := kept + [Trimmed(c, start, end)];
    }
    assert es[..|es|] == es;
  }

  /** The second `i`'s new tracks: the old ones cut around `[start, end]`,
      the pieces, and the new track, sorted by start. */
  method Inserted(es: seq<Track>, start: int, end: int) returns (r: seq<Track>)
    requires es != []
    ensures r == AfterInsert(es, start, end, false)
  {
    var kept, toAdd, toDelete := CutAround(es, start, end);
    r := SortByMin(kept + toAdd + [NewTrack(es[0].video, start, end)]);
  }

  // ---------------------------------------------------------------------------
  // Which track the play time is on.
  // ---------------------------------------------------------------------------

  /** The indices of the tracks holding frame `f`, in order. */
  function TracksAt(es: seq<Track>, f: real): (r: seq<nat>)
    ensures forall k :: 0 <= k < |r| ==> r[k] < |es| && es[r[k]].minFrame as real <= f <= es[r[k]].maxFrame as real
    ensures forall i :: 0 <= i < |es| && es[i].minFrame as real <= f <= es[i].maxFrame as real ==> i in r
    ensures forall a, b :: 0 <= a < b < |r| ==> r[a] < r[b]
  {
    if es == [] then []
    else
      var n := |es| - 1;
      TracksAt(es[..n], f) + (if es[n].minFrame as real <= f <= es[n].maxFrame as real then [n] else [])
  }

  /** The last track that starts by frame `f`. */
  function LastStarted(es: seq<Track>, f: real): (r: Option<nat>)
    ensures r.Some? ==> r.value < |es| && es[r.value].minFrame as real <= f
    ensures r.Some? ==> forall j :: r.value < j < |es| ==> es[j].minFrame as real > f
    ensures r.None? ==> forall j :: 0 <= j < |es| ==> es[j].minFrame as real > f
  {
    if es == [] then None
    else if es[|es| - 1].minFrame as real <= f then Some(|es| - 1)
    else LastStarted(es[..|es| - 1], f)
  }

  /** `r`: away from normal speed it goes to normal speed and remembers the
      old one; at normal speed it goes back to the remembered one. */
  function ToggleSpeed(speed: Option<real>, last: Option<real>): (r: (Option<real>, Option<real>))
    ensures speed != Some(1.0) ==> r == (Some(1.0), speed)
    ensures speed == Some(1.0) ==> r == (last, last)
  {
    if speed != Some(1.0) then (Some(1.0), speed) else (last, last)
  }

  /** Pressing `r` twice away from normal speed comes back to that speed. */
  lemma ToggleSpeedTwice(speed: Option<real>, last: Option<real>)
    requires speed != Some(1.0)
    ensures var once := ToggleSpeed(speed, last);
            ToggleSpeed(once.0, once.1).0 == speed
  {
  }

  /** The keys the editor handles itself: Enter, `r`, `i` and `z`. */
  predicate EditorKey(c: char)
  {
    c == '\r' || c == 'r' || c == 'i' || c == 'z'
  }

  /** The track keys that snapshot the tracks first: `g`, `m`, `n` and `d`. */
  predicate SnapshotKey(c: char)
  {
    c == 'g' || c == 'm' || c == 'n' || c == 'd'
  }

  // ---------------------------------------------------------------------------
  // The component.
  // ---------------------------------------------------------------------------

  class TrackEditor {
    var elements: seq<Track>
    var undoStack: seq<seq<Track>>
    var currentTime: real
    var displayTime: real
    /** The time `i` was first pressed, or -1. */
    var trackStart: real
    var showSelect: bool
    var playbackSpeed: Option<real>
    var lastPlaybackSpeed: Option<real>
    /** `_videoPlaying`: starts false and nothing sets it. */
    var videoPlaying: bool
    /** Whether the mouse is over the editor. */
    var moused: bool
    /** The frame rate of the group's video. */
    const fps: real
    /** The gender table's ids, ascending. */
    const genders: seq<int>

    predicate Valid()
      reads this
    {
      |undoStack| <= MaxUndoStackSize && Increasing(genders)
    }

    constructor (elements: seq<Track>, fps: real, genders: seq<int>, playbackSpeed: Option<real>)
      requires Increasing(genders)
      ensures Valid() && this.elements == elements && this.fps == fps && this.genders == genders
      ensures undoStack == [] && currentTime == 0.0 && displayTime == -1.0 && trackStart == -1.0
      ensures this.playbackSpeed == playbackSpeed && lastPlaybackSpeed == playbackSpeed && !showSelect
      ensures !videoPlaying && !moused
    {
      this.elements := elements;
      undoStack := [];
      currentTime := 0.0;
      displayTime := -1.0;
      trackStart := -1.0;
      showSelect := false;
      this.playbackSpeed := playbackSpeed;
      // The first render stores the speed it finds.
      lastPlaybackSpeed := playbackSpeed;
      videoPlaying := false;
      moused := false;
      this.fps := fps;
      this.genders := genders;
    }

    /** `_pushState`. */
    method PushState()
      requires Valid()
      modifies this`undoStack
      ensures Valid() && undoStack == Pushed(old(undoStack), elements)
      ensures elements == old(elements) && currentTime == old(currentTime) && trackStart == old(trackStart)
      ensures displayTime == old(displayTime) && showSelect == old(showSelect)
      ensures playbackSpeed == old(playbackSpeed) && lastPlaybackSpeed == old(lastPlaybackSpeed)
    {
      PushedBounded(undoStack, elements);
      undoStack := Pushed(undoStack, elements);
    }

    /** `_onTrackKeyPress(chr, i)`. Merging the first track reads the track
        before it, which does not exist, and throws after the snapshot. */
    method TrackKeyPress(chr: char, i: nat) returns (r: Result<()>)
      requires Valid() && i < |elements|
      modifies this`elements, this`undoStack, this`showSelect
      ensures Valid() && currentTime == old(currentTime) && trackStart == old(trackStart)
      ensures r.Err? <==> chr == 'm' && i == 0
      ensures SnapshotKey(chr) ==> undoStack == Pushed(old(undoStack), old(elements))
      ensures !SnapshotKey(chr) ==> undoStack == old(undoStack) && elements == old(elements)
      ensures chr == 'g' ==> elements == old(elements)[i := old(elements)[i].(genderId := NextGender(genders, old(elements)[i].genderId))]
      ensures chr == 'm' && i > 0 ==> elements == Merged(old(elements), i)
      ensures chr == 'm' && i == 0 ==> elements == old(elements)
      ensures chr == 'n' ==> elements == SplitAt(old(elements), i, FrameAt(currentTime, fps))
      ensures chr == 'd' ==> elements == Deleted(old(elements), i)
      ensures showSelect == (chr == 't' || old(showSelect))
    {
      r := Ok(());
      if chr == 'g' {
        PushState();
        elements := elements[i := elements[i].(genderId := NextGender(genders, elements[i].genderId))];
      } else if chr == 'm' {
        PushState();
        if i == 0 {
          return Err(TypeError("cannot set property 'max_frame' of undefined"));
        }
        elements := Merged(elements, i);
      } else if chr == 'n' {
        PushState();
        elements := SplitAt(elements, i, FrameAt(currentTime, fps));
      } else if chr == 'd' {
        PushState();
        elements := Deleted(elements, i);
      } else if chr == 't' {
        showSelect := true;
      }
    }

    /** `z`: the last snapshot replaces the tracks; with none, nothing. */
    method UndoKey()
      requires Valid()
      modifies this`elements, this`undoStack
      ensures Valid()
      ensures old(undoStack) != [] ==>
                elements == old(undoStack)[|old(undoStack)| - 1] && undoStack == old(undoStack)[..|old(undoStack)| - 1]
      ensures old(undoStack) == [] ==> elements == old(elements) && undoStack == []
    {
      if |undoStack| > 0 {
        elements := undoStack[|undoStack| - 1];
        undoStack := undoStack[..|undoStack| - 1];
      }
    }

    /** `i`: the first press marks the play time; the second snapshots, then
        inserts the track between the two marks, rounded to frames. As
        written the tracks inside the new one are not deleted (see
        `CoveredTrackSurvives`; `InsertClears` states the intended result). */
    method InsertKey()
      requires Valid() && elements != []
      modifies this`elements, this`undoStack, this`trackStart
      ensures Valid() && currentTime == old(currentTime)
      ensures old(trackStart) == -1.0 ==>
                trackStart == currentTime && elements == old(elements) && undoStack == old(undoStack)
      ensures old(trackStart) != -1.0 ==>
                && undoStack == Pushed(old(undoStack), old(elements))
                && elements == AfterInsert(old(elements), FrameAt(old(trackStart), fps), FrameAt(currentTime, fps), false)
                && trackStart == -1.0
    {
      if trackStart == -1.0 {
        trackStart := currentTime;
      } else {
        var es := elements;
        var start := FrameAt(trackStart, fps);
        var end := FrameAt(currentTime, fps);
        PushState();
        elements := Inserted(es, start, end);
        trackStart := -1.0;
      }
    }

    /** Enter: jump to the start (plus a tenth of a second) of the track after
        (Shift: before) the last one started by the play time, when there is
        one; with no track started yet, reading it throws. */
    method EnterKey(shift: bool) returns (r: Result<()>)
      requires fps != 0.0
      modifies this`currentTime, this`displayTime
      ensures elements == old(elements) && undoStack == old(undoStack) && trackStart == old(trackStart)
      ensures var last := LastStarted(elements, old(currentTime) * fps);
              && (r.Err? <==> last.None?)
              && (last.None? ==> currentTime == old(currentTime) && displayTime == old(displayTime))
              && (last.Some? ==>
                    var index := last.value + (if shift then -1 else 1);
                    if 0 <= index < |elements| then
                      currentTime == displayTime == elements[index].minFrame as real / fps + 0.1
                    else currentTime == old(currentTime) && displayTime == old(displayTime))
    {
      var last := LastStarted(elements, currentTime * fps);
      if last.None? {
        return Err(TypeError("cannot read property '1' of undefined"));
      }
      var index := last.value + (if shift then -1 else 1);
      if 0 <= index < |elements| {
        var t := elements[index].minFrame as real / fps + 0.1;
        currentTime := t;
        displayTime := t;
      }
      r := Ok(());
    }

    /** `r`: toggle normal playback speed. */
    method SpeedKey()
      modifies this`playbackSpeed, this`lastPlaybackSpeed
      ensures (playbackSpeed, lastPlaybackSpeed) == ToggleSpeed(old(playbackSpeed), old(lastPlaybackSpeed))
      ensures elements == old(elements) && undoStack == old(undoStack)
    {
      if playbackSpeed != Some(1.0) {
        lastPlaybackSpeed := playbackSpeed;
        playbackSpeed := Some(1.0);
      } else {
        playbackSpeed := lastPlaybackSpeed;
      }
    }

    /** Keys are handled only while the video plays or the mouse is over the
        editor. */
    predicate Listening()
      reads this
    {
      videoPlaying || moused
    }

    /** `_containerOnMouseOver`. */
    method OnMouseOver()
      modifies this
      ensures moused && Listening()
      ensures elements == old(elements) && undoStack == old(undoStack) && videoPlaying == old(videoPlaying)
    {
      moused := true;
    }

    /** `_containerOnMouseOut`. */
    method OnMouseOut()
      modifies this
      ensures !moused && Listening() == videoPlaying
      ensures elements == old(elements) && undoStack == old(undoStack) && videoPlaying == old(videoPlaying)
    {
      moused := false;
    }

    /** Enter: the play time moves to the start (plus a tenth of a second)
        of the track after (Shift: before) the last one started by it, when
        there is such a track; with no track started yet it throws; nothing
        else changes. */
    twostate predicate Jumped(shift: bool, new r: Result<()>)
      requires fps != 0.0
      reads this
    {
      var last := LastStarted(old(elements), old(currentTime) * fps);
      && elements == old(elements) && undoStack == old(undoStack) && trackStart == old(trackStart)
      && showSelect == old(showSelect)
      && playbackSpeed == old(playbackSpeed) && lastPlaybackSpeed == old(lastPlaybackSpeed)
      && (r.Err? <==> last.None?)
      && (last.None? ==> currentTime == old(currentTime) && displayTime == old(displayTime))
      && (last.Some? ==>
            var index := last.value + (if shift then -1 else 1);
            if 0 <= index < |old(elements)| then
              currentTime == displayTime == old(elements)[index].minFrame as real / fps + 0.1
            else currentTime == old(currentTime) && displayTime == old(displayTime))
    }

    /** `r`: only the playback speed changes, as `ToggleSpeed` says. */
    twostate predicate SpeedToggled(new r: Result<()>)
      reads this
    {
      && r.Ok? && (playbackSpeed, lastPlaybackSpeed) == ToggleSpeed(old(playbackSpeed), old(lastPlaybackSpeed))
      && elements == old(elements) && undoStack == old(undoStack) && trackStart == old(trackStart)
      && currentTime == old(currentTime) && displayTime == old(displayTime) && showSelect == old(showSelect)
    }

    /** `i`: the first press marks the play time; the second snapshots and
        inserts the track between the marks, as written. */
    twostate predicate InsertPressed(new r: Result<()>)
      reads this
    {
      && r.Ok? && currentTime == old(currentTime) && displayTime == old(displayTime)
      && showSelect == old(showSelect)
      && playbackSpeed == old(playbackSpeed) && lastPlaybackSpeed == old(lastPlaybackSpeed)
      && (old(trackStart) == -1.0 ==>
            trackStart == old(currentTime) && elements == old(elements) && undoStack == old(undoStack))
      && (old(trackStart) != -1.0 ==>
            && old(elements) != []
            && undoStack == Pushed(old(undoStack), old(elements))
            && elements == AfterInsert(old(elements), FrameAt(old(trackStart), fps), FrameAt(old(currentTime), fps), false)
            && trackStart == -1.0)
    }

    /** `z`: the last snapshot replaces the tracks; with none, nothing changes. */
    twostate predicate Undone(new r: Result<()>)
      reads this
    {
      && r.Ok? && currentTime == old(currentTime) && displayTime == old(displayTime)
      && trackStart == old(trackStart) && showSelect == old(showSelect)
      && playbackSpeed == old(playbackSpeed) && lastPlaybackSpeed == old(lastPlaybackSpeed)
      && (old(undoStack) != [] ==>
            && elements == old(undoStack)[|old(undoStack)| - 1]
            && undoStack == old(undoStack)[..|old(undoStack)| - 1])
      && (old(undoStack) == [] ==> elements == old(elements) && undoStack == [])
    }

    /** `_onTrackKeyPress(chr, i)` on track `i`: `g`, `m`, `n`, `d` snapshot,
        then cycle the gender, merge with the track before (throwing for the
        first track), split at the play time or delete; `t` opens the topic
        selection; the play time, the mark and the speed stay. */
    twostate predicate TrackKeyed(chr: char, i: nat, new r: Result<()>)
      requires Increasing(genders)
      reads this
    {
      && i < |old(elements)|
      && currentTime == old(currentTime) && displayTime == old(displayTime) && trackStart == old(trackStart)
      && playbackSpeed == old(playbackSpeed) && lastPlaybackSpeed == old(lastPlaybackSpeed)
      && (r.Err? <==> chr == 'm' && i == 0)
      && (SnapshotKey(chr) ==> undoStack == Pushed(old(undoStack), old(elements)))
      && (!SnapshotKey(chr) ==> undoStack == old(undoStack) && elements == old(elements))
      && (chr == 'g' ==>
            elements == old(elements)[i := old(elements)[i].(genderId := NextGender(genders, old(elements)[i].genderId))])
      && (chr == 'm' && i > 0 ==> elements == Merged(old(elements), i))
      && (chr == 'm' && i == 0 ==> elements == old(elements))
      && (chr == 'n' ==> elements == SplitAt(old(elements), i, FrameAt(old(currentTime), fps)))
      && (chr == 'd' ==> elements == Deleted(old(elements), i))
      && showSelect == (chr == 't' || old(showSelect))
    }

    /** A key other than Enter, `r`, `i` and `z`: `_onTrackKeyPress` on the
        one track under the play time, nothing when there are zero or several. */
    method OtherKey(chr: char) returns (r: Result<()>)
      requires Valid()
      modifies this`elements, this`undoStack, this`showSelect
      ensures Valid()
      ensures |TracksAt(old(elements), old(currentTime) * fps)| != 1 ==>
                r.Ok? && unchanged(this)
      ensures |TracksAt(old(elements), old(currentTime) * fps)| == 1 ==>
                TrackKeyed(chr, TracksAt(old(elements), old(currentTime) * fps)[0], r)
    {
      var current := TracksAt(elements, currentTime * fps);
      if |current| == 1 {
        r := TrackKeyPress(chr, current[0]);
      } else {
        r := Ok(());
      }
    }

    /** `_onKeyPress` once the editor listens and the group has tracks. */
    method HandleKey(chr: char, shift: bool) returns (r: Result<()>)
      requires Valid() && fps != 0.0 && elements != []
      modifies this`elements, this`undoStack, this`showSelect, this`trackStart, this`currentTime, this`displayTime,
               this`playbackSpeed, this`lastPlaybackSpeed
      ensures Valid()
      ensures chr == '\r' ==> Jumped(shift, r)
      ensures chr == 'r' ==> SpeedToggled(r)
      ensures chr == 'i' ==> InsertPressed(r)
      ensures chr == 'z' ==> Undone(r)
      ensures !EditorKey(chr) && |TracksAt(old(elements), old(currentTime) * fps)| != 1 ==> r.Ok? && unchanged(this)
      ensures !EditorKey(chr) && |TracksAt(old(elements), old(currentTime) * fps)| == 1 ==>
                TrackKeyed(chr, TracksAt(old(elements), old(currentTime) * fps)[0], r)
    {
      if chr == '\r' {
        r := EnterKey(shift);
      } else if chr == 'r' {
        SpeedKey();
        r := Ok(());
      } else if chr == 'i' {
        InsertKey();
        r := Ok(());
      } else if chr == 'z' {
        UndoKey();
        r := Ok(());
      } else {
        r := OtherKey(chr);
      }
    }

    /** `_onKeyPress`: ignored unless the editor is listening; then every key
        first reads the video's frame rate through the first track, which
        throws for an empty group; any key other than Enter, `r`, `i` and `z`
        goes to the one track under the play time, and to none when there are
        zero or several. */
    method KeyPress(chr: char, shift: bool) returns (r: Result<()>)
      requires Valid() && fps != 0.0
      modifies this`elements, this`undoStack, this`showSelect, this`trackStart, this`currentTime, this`displayTime,
               this`playbackSpeed, this`lastPlaybackSpeed
      ensures Valid()
      ensures !old(Listening()) ==> r.Ok? && unchanged(this)
      ensures old(Listening()) && old(elements) == [] ==> r.Err? && unchanged(this)
      ensures old(Listening()) && old(elements) != [] && chr == '\r' ==> Jumped(shift, r)
      ensures old(Listening()) && old(elements) != [] && chr == 'r' ==> SpeedToggled(r)
      ensures old(Listening()) && old(elements) != [] && chr == 'i' ==> InsertPressed(r)
      ensures old(Listening()) && old(elements) != [] && chr == 'z' ==> Undone(r)
      ensures old(Listening()) && old(elements) != [] && !EditorKey(chr) && |TracksAt(old(elements), old(currentTime) * fps)| != 1 ==>
                r.Ok? && unchanged(this)
      ensures old(Listening()) && old(elements) != [] && !EditorKey(chr) && |TracksAt(old(elements), old(currentTime) * fps)| == 1 ==>
                TrackKeyed(chr, TracksAt(old(elements), old(currentTime) * fps)[0], r)
    {
      if !Listening() {
        return Ok(());
      }
      if elements == [] {
        return Err(TypeError("cannot read property 'video' of undefined"));
      }
      r := HandleKey(chr, shift);
    }
  }
}
