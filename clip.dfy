/**
 * One clip of the older front end's grid (src/views/Clip.jsx): a thumbnail
 * that turns into a playing video, with a subtitle sidebar. Subtitle cues
 * from the server are merged into speaker turns, a new turn starting at
 * every `> >` in the text; the sidebar highlights the turn being spoken.
 */
module Clip {
  import opened Js
  import opened Text

  /** A subtitle cue, and a merged turn. */
  datatype Caption = Caption(text: string, startTime: real, endTime: real)

  /** The speaker-change mark. */
  const Arrows: string := "> >"

  // ---------------------------------------------------------------------------
  // Merging cues into turns.
  // ---------------------------------------------------------------------------

  /** The loop state: the text of the turn being built, when it started, and
      the turns emitted so far. */
  datatype Merge = Merge(curSub: string, startTime: real, out: seq<Caption>)

  /** One turn per piece, all with the same times. */
  function TurnsOf(pieces: seq<string>, startTime: real, endTime: real): (r: seq<Caption>)
    ensures |r| == |pieces|
    ensures forall k :: 0 <= k < |r| ==> r[k].startTime == startTime && r[k].endTime == endTime
  {
    if pieces == [] then []
    else TurnsOf(pieces[..|pieces| - 1], startTime, endTime) + [Caption(Trim(pieces[|pieces| - 1]), startTime, endTime)]
  }

  /** The turns between the first and the last `> >` of one cue, each
      starting at the cue's start. */
  function Middle(parts: seq<string>, startTime: real, endTime: real): (r: seq<Caption>)
    requires |parts| >= 2
    ensures |r| == |parts| - 2
    ensures forall k :: 0 <= k < |r| ==> r[k].startTime == startTime && r[k].endTime == endTime
  {
    TurnsOf(parts[1..|parts| - 1], startTime, endTime)
  }

  /** The turns one cue of the merge loop emits. With a mark, the turn in
      progress ends at the first mark and is emitted from the start recorded
      at the previous mark, and every middle piece becomes a turn of its own
      from this cue's start. A cue without a mark emits nothing inside a
      turn, and itself outside one. Everything emitted ends at this cue's
      end. */
  function Emitted(m: Merge, c: Caption): (e: seq<Caption>)
    ensures forall k :: 0 <= k < |e| ==> e[k].endTime == c.endTime
  {
    var parts := Split(c.text, Arrows);
    if |parts| > 1 then
      [Caption(Trim(m.curSub + parts[0] + " "), m.startTime, c.endTime)] + Middle(parts, c.startTime, c.endTime)
    else if m.curSub != "" then []
    else [Caption(Trim(parts[0] + " "), c.startTime, c.endTime)]
  }

  /** One cue of the merge loop: its turns are emitted, and the text after
      its last mark (or, inside a turn, all its text) goes on the turn in
      progress. */
  function Step(m: Merge, c: Caption): Merge
  {
    var parts := Split(c.text, Arrows);
    var out := m.out + Emitted(m, c);
    if |parts| > 1 then Merge(parts[|parts| - 1] + " ", c.startTime, out)
    else if m.curSub != "" then Merge(m.curSub + parts[0] + " ", m.startTime, out)
    else Merge("", m.startTime, out)
  }

  /** A cue with marks: the turn in progress ends at the first mark and is
      emitted from the start recorded at the previous mark; each middle piece
      is a turn from this cue's start; the piece after the last mark opens
      the next turn, from this cue's start. */
  lemma StepWithMarks(m: Merge, c: Caption)
    requires |Split(c.text, Arrows)| > 1
    ensures var parts := Split(c.text, Arrows);
            var r := Step(m, c);
            && |r.out| == |m.out| + |parts| - 1
            && r.out[|m.out|] == Caption(Trim(m.curSub + parts[0] + " "), m.startTime, c.endTime)
            && (forall k :: |m.out| < k < |r.out| ==> r.out[k].startTime == c.startTime)
            && r.curSub == parts[|parts| - 1] + " " && r.startTime == c.startTime
  {
  }

  /** A cue without a mark inside a turn only extends its text. */
  lemma StepInsideTurn(m: Merge, c: Caption)
    requires !Contains(c.text, Arrows) && m.curSub != ""
    ensures Step(m, c) == Merge(m.curSub + c.text + " ", m.startTime, m.out)
  {
    SplitOnePieceIff(c.text, Arrows);
  }

  /** A cue without a mark outside any turn is a turn of its own. */
  lemma StepOutsideTurn(m: Merge, c: Caption)
    requires !Contains(c.text, Arrows) && m.curSub == ""
    ensures Step(m, c) == Merge("", m.startTime, m.out + [Caption(Trim(c.text + " "), c.startTime, c.endTime)])
  {
    SplitOnePieceIff(c.text, Arrows);
  }

  /** The merge loop over `subs`, from state `m`. */
  function MergeAll(subs: seq<Caption>, m: Merge): Merge
  {
    if subs == [] then m else Step(MergeAll(subs[..|subs| - 1], m), subs[|subs| - 1])
  }

  predicate HasArrows(subs: seq<Caption>)
  {
    exists i :: 0 <= i < |subs| && Contains(subs[i].text, Arrows)
  }

  /** The text the first turn starts from: a NUL when the cues have marks but
      the first does not start with one (so the text before the first mark
      is a turn of its own rather than a run of single cues), empty
      otherwise. */
  function FirstCurSub(subs: seq<Caption>): string
    requires subs != []
  {
    if !HasArrows(subs) then ""
    else if StartsWith(subs[0].text, Arrows) then ""
    else "\0"
  }

  /** The turns built in `componentDidMount`, as written: reading the first
      cue of an empty list throws, and the text after the last mark is left
      in the loop state and never emitted. */
  function TurnsAsWritten(subs: seq<Caption>): (r: Result<seq<Caption>>)
    ensures r.Err? <==> subs == []
  {
    if subs == [] then Err(TypeError("cannot read property 'text' of undefined"))
    else Ok(MergeAll(subs, Merge(FirstCurSub(subs), 0.0, [])).out)
  }

  /** A cue that is merely a mark followed by a word yields one empty turn:
      the word is lost. */
  lemma TrailingTextDropped()
    ensures TurnsAsWritten([Caption("> >b", 0.0, 1.0)]) == Ok([Caption("", 0.0, 1.0)])
  {
    var c := Caption("> >b", 0.0, 1.0);
    var m0 := Merge("", 0.0, []);
    MarkStartsTurns(c);
    assert [c][..0] == [];
    assert MergeAll([c], m0) == Step(m0, c);
    EmittedByMarkThenWord(m0, c);
  }

  lemma MarkStartsTurns(c: Caption)
    requires c.text == "> >b"
    ensures FirstCurSub([c]) == ""
  {
    assert MatchesAt(c.text, Arrows, 0);
    assert Contains([c][0].text, Arrows);
  }

  lemma EmittedByMarkThenWord(m0: Merge, c: Caption)
    requires m0 == Merge("", 0.0, []) && c == Caption("> >b", 0.0, 1.0)
    ensures Step(m0, c).out == [Caption("", 0.0, 1.0)]
  {
    var parts := SplitMarkThenWord();
    assert Middle(parts, 0.0, 1.0) == [];
    assert Trim("" + "" + " ") == "" by {
      assert "" + "" + " " == " ";
      assert TrimStart(" ") == TrimStart("");
    }
    assert Emitted(m0, c) == [Caption("", 0.0, 1.0)];
  }

  lemma SplitMarkThenWord() returns (parts: seq<string>)
    ensures parts == Split("> >b", Arrows) == ["", "b"]
  {
    var s := "> >b";
    assert s[..|Arrows|] == Arrows;
    assert s[|Arrows|..] == "b";
    parts := Split(s, Arrows);
  }

  /** The turns as intended: the same loop, with the last turn emitted when
      it holds any text, from the start of its mark to the end of the last
      cue. */
  function Turns(subs: seq<Caption>): (r: Result<seq<Caption>>)
    ensures r.Err? <==> subs == []
  {
    if subs == [] then Err(TypeError("cannot read property 'text' of undefined"))
    else
      var m := MergeAll(subs, Merge(FirstCurSub(subs), 0.0, []));
      if Trim(m.curSub) == "" then Ok(m.out)
      else Ok(m.out + [Caption(Trim(m.curSub), m.startTime, subs[|subs| - 1].endTime)])
  }

  /** With the last turn flushed, the text after the last mark of the last
      cue is the last turn, from that cue's start to its end. */
  lemma LastTurnKept(subs: seq<Caption>)
    requires subs != []
    requires var parts := Split(subs[|subs| - 1].text, Arrows);
             |parts| > 1 && Trim(parts[|parts| - 1] + " ") != ""
    ensures var parts := Split(subs[|subs| - 1].text, Arrows);
            var r := Turns(subs).value;
            r != [] && r[|r| - 1] == Caption(Trim(parts[|parts| - 1] + " "), subs[|subs| - 1].startTime, subs[|subs| - 1].endTime)
  {
  }

  /** A cue as a turn of its own: its text trimmed, its own times. */
  function Own(c: Caption): Caption
  {
    Caption(Trim(c.text + " "), c.startTime, c.endTime)
  }

  /** The turns of cues without marks: one per cue. */
  function OnePerCue(subs: seq<Caption>): (r: seq<Caption>)
    ensures |r| == |subs|
    ensures forall i :: 0 <= i < |subs| ==> r[i] == Own(subs[i])
  {
    if subs == [] then [] else OnePerCue(subs[..|subs| - 1]) + [Own(subs[|subs| - 1])]
  }

  lemma {:induction false} MergeWithoutArrows(subs: seq<Caption>)
    requires forall i :: 0 <= i < |subs| ==> !Contains(subs[i].text, Arrows)
    ensures MergeAll(subs, Merge("", 0.0, [])) == Merge("", 0.0, OnePerCue(subs))
  {
    if subs != [] {
      var n := |subs| - 1;
      var before := subs[..n];
      assert forall i :: 0 <= i < n ==> before[i] == subs[i];
      MergeWithoutArrows(before);
      StepOutsideTurn(MergeAll(before, Merge("", 0.0, [])), subs[n]);
    }
  }

  /** Without any mark, every cue is a turn of its own. */
  lemma NoArrowsOnePerCue(subs: seq<Caption>)
    requires subs != [] && !HasArrows(subs)
    ensures TurnsAsWritten(subs) == Ok(OnePerCue(subs))
  {
    assert forall i :: 0 <= i < |subs| ==> !Contains(subs[i].text, Arrows);
    MergeWithoutArrows(subs);
  }

  /** Every turn ends where some cue ends. */
  lemma {:induction false} EndTimesFromCues(subs: seq<Caption>, m: Merge)
    ensures var r := MergeAll(subs, m);
            forall k :: |m.out| <= k < |r.out| ==> exists i :: 0 <= i < |subs| && r.out[k].endTime == subs[i].endTime
    ensures |MergeAll(subs, m).out| >= |m.out| && MergeAll(subs, m).out[..|m.out|] == m.out
  {
    if subs != [] {
      var n := |subs| - 1;
      EndTimesFromCues(subs[..n], m);
      var before := MergeAll(subs[..n], m);
      var r := MergeAll(subs, m);
      assert r == Step(before, subs[n]);
      forall k | |m.out| <= k < |r.out|
        ensures exists i :: 0 <= i < |subs| && r.out[k].endTime == subs[i].endTime
      {
        if k < |before.out| {
          assert r.out[k] == before.out[k];
          var i :| 0 <= i < n && before.out[k].endTime == subs[..n][i].endTime;
          assert subs[..n][i] == subs[i];
        } else {
          assert r.out[k].endTime == subs[n].endTime;
        }
      }
    }
  }

  /** `componentDidMount`'s merge loop. */
  method MergeSubtitles(subs: seq<Caption>) returns (r: Result<seq<Caption>>)
    ensures r == TurnsAsWritten(subs)
  {
    if |subs| == 0 {
      return Err(TypeError("cannot read property 'text' of undefined"));
    }
    var hasDoubleArrow := AnyArrows(subs);
    var curSub := if StartsWith(subs[0].text, Arrows) then "" else "\0";
    if !hasDoubleArrow {
      curSub := "";
    }
    var startTime := 0.0;
    var formatted: seq<Caption> := [];
    ghost var m0 := Merge(curSub, startTime, formatted);
    assert m0 == Merge(FirstCurSub(subs), 0.0, []);
    for i := 0 to |subs|
      invariant Merge(curSub, startTime, formatted) == MergeAll(subs[..i], m0)
    {
      assert subs[..i + 1][..i] == subs[..i];
      curSub, startTime, formatted := MergeCue(curSub, startTime, formatted, subs[i]);
    }
    assert subs[..|subs|] == subs;
    r := Ok(formatted);
  }

  /** The `hasDoubleArrow` loop. */
  method AnyArrows(subs: seq<Caption>) returns (found: bool)
    ensures found == HasArrows(subs)
  {
    found := false;
    for i := 0 to |subs|
      invariant found <==> HasArrows(subs[..i])
    {
      assert forall j :: 0 <= j < i ==> subs[..i + 1][j] == subs[..i][j];
      if Contains(subs[i].text, Arrows) {
        assert subs[..i + 1][i] == subs[i];
        found := true;
      }
    }
    assert subs[..|subs|] == subs;
  }

  /** The body of the merge loop for one cue. */
  method MergeCue(curSub: string, startTime: real, formatted: seq<Caption>, sub: Caption)
    returns (curSub': string, startTime': real, formatted': seq<Caption>)
    ensures Merge(curSub', startTime', formatted') == Step(Merge(curSub, startTime, formatted), sub)
  {
    curSub', startTime', formatted' := curSub, startTime, formatted;
    var parts := Split(sub.text, Arrows);
    if curSub' != "" || |parts| > 1 {
      curSub' := curSub' + parts[0] + " ";
      if |parts| > 1 {
        formatted' := formatted' + [Caption(Trim(curSub'), startTime', sub.endTime)];
        startTime' := sub.startTime;
        formatted' := PushMiddle(formatted', parts, startTime', sub.endTime);
        curSub' := parts[|parts| - 1] + " ";
      }
    } else {
      curSub' := parts[0] + " ";
      formatted' := formatted' + [Caption(Trim(curSub'), sub.startTime, sub.endTime)];
      curSub' := "";
    }
  }

  /** `parts.slice(1, -1).forEach(...)`: a turn per middle piece. */
  method PushMiddle(formatted: seq<Caption>, parts: seq<string>, startTime: real, endTime: real)
    returns (r: seq<Caption>)
    requires |parts| >= 2
    ensures r == formatted + Middle(parts, startTime, endTime)
  {
    r := formatted;
    for k := 1 to |parts| - 1
      invariant r == formatted + TurnsOf(parts[1..k], startTime, endTime)
    {
      ghost var pieces := parts[1..k + 1];
      assert pieces[..|pieces| - 1] == parts[1..k] && pieces[|pieces| - 1] == parts[k];
      r := r + [Caption(Trim(parts[k]), startTime, endTime)];
    }
  }

  // ---------------------------------------------------------------------------
  // The turn being spoken.
  // ---------------------------------------------------------------------------

  /** The number of leading turns that have started by time `t`. */
  function StartedBy(captions: seq<Caption>, t: real): (k: nat)
    ensures k <= |captions|
    ensures forall j :: 0 <= j < k ==> captions[j].startTime <= t
    ensures k < |captions| ==> captions[k].startTime > t
  {
    if captions == [] || captions[0].startTime > t then 0 else 1 + StartedBy(captions[1..], t)
  }

  /** The `Subtitle` render's search: the turn before the first one that has
      not started yet, and the first turn when none has started. */
  method CurrentSub(captions: seq<Caption>, t: real) returns (i: nat)
    ensures i == if StartedBy(captions, t) == 0 then 0 else StartedBy(captions, t) - 1
  {
    var k := 0;
    while k < |captions| && captions[k].startTime <= t
      invariant k <= StartedBy(captions, t)
    {
      k := k + 1;
    }
    i := if k - 1 >= 0 then k - 1 else 0;
  }

  predicate SortedByStart(captions: seq<Caption>)
  {
    forall a, b :: 0 <= a < b < |captions| ==> captions[a].startTime <= captions[b].startTime
  }

  /** With turns in start order, the highlighted turn is the last one that
      has started, when one has. */
  lemma CurrentSubIsLastStarted(captions: seq<Caption>, t: real, i: nat)
    requires SortedByStart(captions)
    requires i == if StartedBy(captions, t) == 0 then 0 else StartedBy(captions, t) - 1
    requires captions != [] && captions[0].startTime <= t
    ensures i < |captions| && captions[i].startTime <= t
    ensures forall j :: i < j < |captions| ==> captions[j].startTime > t
  {
  }

  // ---------------------------------------------------------------------------
  // The thumbnail frame.
  // ---------------------------------------------------------------------------

  /** `display_frame`: the clip's own when it has one; otherwise the middle
      frame, rounded half up (within half a frame of the midpoint), when the setting asks for it and the clip has a
      non-zero end; otherwise the first frame. */
  function DisplayFrame(displayFrame: Option<int>, showMiddle: bool, minFrame: int, maxFrame: Option<int>): (f: int)
    ensures displayFrame.Some? ==> f == displayFrame.value
    ensures displayFrame.None? && showMiddle && maxFrame.Some? && maxFrame.value != 0 ==>
              2 * f - 1 <= minFrame + maxFrame.value < 2 * f + 1
    ensures displayFrame.None? && showMiddle && maxFrame.Some? && maxFrame.value != 0 && minFrame <= maxFrame.value ==>
              minFrame <= f <= maxFrame.value
    ensures displayFrame.None? && (!showMiddle || maxFrame.None? || maxFrame.value == 0) ==> f == minFrame
  {
    if displayFrame.Some? then displayFrame.value
    else if showMiddle && maxFrame.Some? && maxFrame.value != 0 then Round((maxFrame.value + minFrame) as real / 2.0)
    else minFrame
  }

  // ---------------------------------------------------------------------------
  // The clip.
  // ---------------------------------------------------------------------------

  datatype VideoState = Off | Loading | Showing

  class ClipView {
    var videoState: VideoState
    var loopVideo: bool
    var videoLoaded: bool
    var captions: Option<seq<Caption>>
    var currentTime: real
    var curSub: Option<nat>

    constructor (currentTime: real)
      ensures videoState == Off && !loopVideo && !videoLoaded && captions == None && curSub == None
      ensures this.currentTime == currentTime
    {
      videoState := Off;
      loopVideo := false;
      videoLoaded := false;
      captions := None;
      this.currentTime := currentTime;
      curSub := None;
    }

    /** The video is asked to play while loading or showing. */
    predicate Playing()
      reads this
    {
      videoState == Loading || videoState == Showing
    }

    /** `_onKeyPress`: the play key loads the video to play once, the load
        key to play in a loop; nothing happens with playback disabled. */
    method OnKeyPress(chr: char, jupyter: bool, disablePlayback: bool)
      modifies this
      ensures var play := if jupyter then 'P' else 'p';
              var load := if jupyter then 'L' else 'l';
              && (!disablePlayback && chr == play ==> videoState == Loading && !loopVideo)
              && (!disablePlayback && chr != play && chr == load ==> videoState == Loading && loopVideo)
              && (disablePlayback || (chr != play && chr != load) ==>
                    videoState == old(videoState) && loopVideo == old(loopVideo))
      ensures videoLoaded == old(videoLoaded) && captions == old(captions) && currentTime == old(currentTime)
      ensures curSub == old(curSub)
    {
      if disablePlayback {
        return;
      }
      var play := if jupyter then 'P' else 'p';
      var load := if jupyter then 'L' else 'l';
      if chr == play {
        videoState, loopVideo := Loading, false;
      } else if chr == load {
        videoState, loopVideo := Loading, true;
      }
    }

    /** `_onLoadedData`: a loading video is shown; one that arrives in any
        other state is switched off. */
    method OnLoadedData()
      modifies this
      ensures videoState == (if old(videoState) == Loading then Showing else Off)
      ensures videoLoaded && loopVideo == old(loopVideo) && captions == old(captions)
      ensures currentTime == old(currentTime) && curSub == old(curSub)
    {
      videoState := if videoState == Loading then Showing else Off;
      videoLoaded := true;
    }

    /** `_onMouseLeave`, and `componentDidUpdate`'s first step: an
        unexpanded clip switches its video off. */
    method OnMouseLeave(expand: bool)
      modifies this
      ensures videoState == (if expand then old(videoState) else Off)
      ensures videoLoaded == old(videoLoaded) && loopVideo == old(loopVideo) && captions == old(captions)
      ensures currentTime == old(currentTime) && curSub == old(curSub)
    {
      if !expand {
        videoState := Off;
      }
    }

    method DidUpdate(expand: bool)
      modifies this
      ensures !expand ==> videoState == Off && !Playing()
      ensures expand ==> videoState == old(videoState)
      ensures videoLoaded == old(videoLoaded) && loopVideo == old(loopVideo) && captions == old(captions)
      ensures currentTime == old(currentTime) && curSub == old(curSub)
    {
      if !expand && videoState != Off {
        videoState := Off;
      }
    }

    /** `_onTimeUpdate`: the player's time is remembered. */
    method OnTimeUpdate(t: real)
      modifies this
      ensures currentTime == t
      ensures videoState == old(videoState) && videoLoaded == old(videoLoaded) && loopVideo == old(loopVideo)
      ensures captions == old(captions) && curSub == old(curSub)
    {
      currentTime := t;
    }

    /** The subtitle fetch's answer: the merged turns replace the captions;
        an empty answer throws inside the promise and changes nothing. */
    method OnSubtitles(subs: seq<Caption>)
      modifies this
      ensures subs != [] ==> captions == Some(TurnsAsWritten(subs).value)
      ensures subs == [] ==> captions == old(captions)
      ensures videoState == old(videoState) && videoLoaded == old(videoLoaded) && loopVideo == old(loopVideo)
      ensures currentTime == old(currentTime) && curSub == old(curSub)
    {
      var r := MergeSubtitles(subs);
      if r.Ok? {
        captions := Some(r.value);
      }
    }

    /** The `Subtitle` render: with captions loaded, the turn being spoken is
        recorded for scrolling. */
    method RenderSubtitles()
      modifies this
      ensures captions.Some? ==> curSub == Some(if StartedBy(captions.value, currentTime) == 0 then 0
                                              else StartedBy(captions.value, currentTime) - 1)
      ensures captions.None? ==> curSub == old(curSub)
      ensures videoState == old(videoState) && videoLoaded == old(videoLoaded) && loopVideo == old(loopVideo)
      ensures captions == old(captions) && currentTime == old(currentTime)
    {
      if captions.Some? {
        var i := CurrentSub(captions.value, currentTime);
        curSub := Some(i);
      }
    }
  }
}
