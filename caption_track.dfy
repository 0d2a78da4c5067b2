/**
 * The caption strip of the older front end (src/caption_track.tsx). Its
 * constructor cuts a block's caption intervals into display groups: a
 * caption whose text holds the delimiter is split into pieces, each piece
 * after the first keeping the delimiter in front, and a group ends after
 * every piece but the last of a caption. Its render scrolls to the first
 * group whose last caption starts at or after the play time.
 */
module CaptionTrack {
  import opened Js
  import Text
  import opened Drawable
  import opened LegacyInterval

  type Caption = Interval<DrawType>

  /** What calling `split` on a text that is not a string throws. */
  const NotText := TypeError("text.split is not a function")

  /** `(intvl.draw_type as DrawType_Caption).text` used as a string; any other
      draw type or text makes `split` throw. */
  function CaptionText(c: Caption): (r: Result<string>)
    ensures r.Ok? <==> c.drawType.Some? && c.drawType.value.DrawCaption? && c.drawType.value.text.Some?
                       && c.drawType.value.text.value.Str?
    ensures r.Ok? ==> c.drawType == Some(DrawCaption(Some(Str(r.value))))
    ensures r.Err? ==> r.error == NotText
  {
    match c.drawType
    case Some(DrawCaption(Some(Str(s)))) => Ok(s)
    case _ => Err(NotText)
  }

  /** The text of a caption built by the track, `""` where there is none. */
  function TextOf(c: Caption): string
  {
    if CaptionText(c).Ok? then CaptionText(c).value else ""
  }

  /** `new Interval(intvl.bounds, new DrawType_Caption(text), intvl.metadata)`. */
  function WithText(c: Caption, text: string): (p: Caption)
    ensures p.bounds == c.bounds && p.metadata == c.metadata && CaptionText(p) == Ok(text)
  {
    Interval(c.bounds, Some(DrawCaption(Some(Str(text)))), c.metadata)
  }

  /** The text of piece `i`: the delimiter goes back in front of every piece
      but the first. */
  function PartText(parts: seq<string>, i: nat, d: string): string
    requires i < |parts|
  {
    (if i == 0 then "" else d) + parts[i]
  }

  /** The captions one caption of text `text` contributes: itself when the
      text has no delimiter, otherwise one caption per piece. */
  function Pieces(c: Caption, text: string, d: string): (ps: seq<Caption>)
    requires |d| > 0
    ensures |ps| == |Text.Split(text, d)|
    ensures forall i :: 0 <= i < |ps| ==> ps[i].bounds == c.bounds && ps[i].metadata == c.metadata
  {
    var parts := Text.Split(text, d);
    if |parts| == 1 then [c]
    else seq(|parts|, i requires 0 <= i < |parts| => WithText(c, PartText(parts, i, d)))
  }

  /** The texts of some captions, run together. */
  function JoinedText(cs: seq<Caption>): string
  {
    if cs == [] then "" else JoinedText(cs[..|cs| - 1]) + TextOf(cs[|cs| - 1])
  }

  lemma {:induction false} JoinedTextAppend(cs: seq<Caption>, ds: seq<Caption>)
    ensures JoinedText(cs + ds) == JoinedText(cs) + JoinedText(ds)
    decreases |ds|
  {
    if ds == [] {
      assert cs + ds == cs;
    } else {
      var init, last := ds[..|ds| - 1], ds[|ds| - 1];
      assert JoinedText(cs + ds) == JoinedText(cs + init) + TextOf(last) by {
        assert (cs + ds)[..|cs + ds| - 1] == cs + init;
        assert (cs + ds)[|cs + ds| - 1] == last;
      }
      assert JoinedText(cs + init) == JoinedText(cs) + JoinedText(init) by {
        JoinedTextAppend(cs, init);
      }
      assert JoinedText(ds) == JoinedText(init) + TextOf(last);
      AppendAssoc(JoinedText(cs), JoinedText(init), TextOf(last));
    }
  }

  /** The pieces of a caption, read back in order, give its text. */
  lemma PiecesRebuildText(c: Caption, text: string, d: string)
    requires |d| > 0 && CaptionText(c) == Ok(text)
    ensures JoinedText(Pieces(c, text, d)) == text
  {
    var parts := Text.Split(text, d);
    if |parts| == 1 {
      assert JoinedText([c]) == JoinedText([]) + TextOf(c);
    } else {
      var all := seq(|parts|, i requires 0 <= i < |parts| => WithText(c, PartText(parts, i, d)));
      PartsRebuildJoin(c, parts, all, d, |parts|);
      assert Pieces(c, text, d) == all == all[..|parts|];
      assert parts[..|parts|] == parts;
      Text.JoinSplit(text, d);
    }
  }

  /** The first `n` pieces read back as the first `n` parts joined. */
  lemma {:induction false} PartsRebuildJoin(c: Caption, parts: seq<string>, all: seq<Caption>, d: string, n: nat)
    requires |all| == |parts|
    requires forall i {:trigger PartText(parts, i, d)} :: 0 <= i < |parts| ==> all[i] == WithText(c, PartText(parts, i, d))
    requires 1 <= n <= |parts|
    ensures JoinedText(all[..n]) == Text.Join(parts[..n], d)
  {
    assert all[n - 1] == WithText(c, PartText(parts, n - 1, d));
    if n == 1 {
      PartsRebuildFirst(c, parts, all, d);
    } else {
      PartsRebuildJoin(c, parts, all, d, n - 1);
      PartsRebuildNext(c, parts, all, d, n);
    }
  }

  lemma PartsRebuildFirst(c: Caption, parts: seq<string>, all: seq<Caption>, d: string)
    requires 1 <= |all| == |parts|
    requires all[0] == WithText(c, PartText(parts, 0, d))
    ensures JoinedText(all[..1]) == Text.Join(parts[..1], d)
  {
    JoinedTextPrefix(all, 1);
    TextOfWithText(c, PartText(parts, 0, d));
    assert JoinedText(all[..0]) == "" by { assert all[..0] == []; }
    assert Text.Join(parts[..1], d) == parts[0] by { assert parts[..1] == [parts[0]]; }
  }

  lemma PartsRebuildNext(c: Caption, parts: seq<string>, all: seq<Caption>, d: string, n: nat)
    requires 1 < n <= |all| == |parts|
    requires all[n - 1] == WithText(c, PartText(parts, n - 1, d))
    requires JoinedText(all[..n - 1]) == Text.Join(parts[..n - 1], d)
    ensures JoinedText(all[..n]) == Text.Join(parts[..n], d)
  {
    var init, t := Text.Join(parts[..n - 1], d), PartText(parts, n - 1, d);
    JoinedTextPrefix(all, n);
    TextOfWithText(c, t);
    JoinPrefix(parts, n, d);
    assert t == d + parts[n - 1];
    AppendAssoc(init, d, parts[n - 1]);
  }

  lemma TextOfWithText(c: Caption, t: string)
    ensures TextOf(WithText(c, t)) == t
  {
  }

  lemma JoinedTextPrefix(cs: seq<Caption>, n: nat)
    requires 1 <= n <= |cs|
    ensures JoinedText(cs[..n]) == JoinedText(cs[..n - 1]) + TextOf(cs[n - 1])
  {
    assert cs[..n][..n - 1] == cs[..n - 1];
  }

  lemma JoinPrefix(parts: seq<string>, n: nat, d: string)
    requires 1 < n <= |parts|
    ensures Text.Join(parts[..n], d) == Text.Join(parts[..n - 1], d) + d + parts[n - 1]
  {
    JoinSnoc(parts[..n - 1], parts[n - 1], d);
    assert parts[..n - 1] + [parts[n - 1]] == parts[..n];
  }

  lemma {:induction false} JoinSnoc(parts: seq<string>, p: string, d: string)
    requires |parts| >= 1
    ensures Text.Join(parts + [p], d) == Text.Join(parts, d) + d + p
    decreases |parts|
  {
    if |parts| == 1 {
      assert (parts + [p])[1..] == [p];
    } else {
      var x, r := parts[0] + d, Text.Join(parts[1..], d);
      assert Text.Join(parts + [p], d) == x + Text.Join(parts[1..] + [p], d) by {
        assert (parts + [p])[1..] == parts[1..] + [p];
      }
      assert Text.Join(parts[1..] + [p], d) == r + d + p by {
        JoinSnoc(parts[1..], p, d);
      }
      AppendAssoc(x, r + d, p);
      AppendAssoc(x, r, d);
    }
  }

  /** The groups closed so far and the group being filled. */
  datatype Grouping = Grouping(closed: seq<seq<Caption>>, current: seq<Caption>)
  {
    function All(): seq<seq<Caption>> { closed + [current] }
  }

  /** Each caption of a list as its own group. */
  function Singletons(cs: seq<Caption>): (gs: seq<seq<Caption>>)
    ensures |gs| == |cs| && forall i :: 0 <= i < |cs| ==> gs[i] == [cs[i]]
  {
    seq(|cs|, i requires 0 <= i < |cs| => [cs[i]])
  }

  /** One caption of text `text` added to the grouping. */
  function Step(g: Grouping, c: Caption, text: string, d: string): Grouping
    requires |d| > 0
  {
    var ps := Pieces(c, text, d);
    if |ps| == 1 then Grouping(g.closed, g.current + [c])
    else Grouping(g.closed + [g.current + [ps[0]]] + Singletons(ps[1..|ps| - 1]), [ps[|ps| - 1]])
  }

  /** The grouping after the whole list, or the error of the first caption
      without a text. */
  function Grouped(cs: seq<Caption>, d: string): Result<Grouping>
    requires |d| > 0
  {
    if cs == [] then Ok(Grouping([], []))
    else
      match Grouped(cs[..|cs| - 1], d)
      case Err(e) => Err(e)
      case Ok(g) =>
        match CaptionText(cs[|cs| - 1])
        case Err(e) => Err(e)
        case Ok(text) => Ok(Step(g, cs[|cs| - 1], text, d))
  }

  /** Every caption's pieces, in order. */
  function Derived(cs: seq<Caption>, d: string): seq<Caption>
    requires |d| > 0
  {
    if cs == [] then [] else Derived(cs[..|cs| - 1], d) + Pieces(cs[|cs| - 1], TextOf(cs[|cs| - 1]), d)
  }

  /** How many groups the captions close: one fewer than its pieces per
      caption. */
  function Cuts(cs: seq<Caption>, d: string): nat
    requires |d| > 0
  {
    if cs == [] then 0 else Cuts(cs[..|cs| - 1], d) + |Text.Split(TextOf(cs[|cs| - 1]), d)| - 1
  }

  function Flatten(gs: seq<seq<Caption>>): seq<Caption>
  {
    if gs == [] then [] else Flatten(gs[..|gs| - 1]) + gs[|gs| - 1]
  }

  lemma {:induction false} FlattenAppend(gs: seq<seq<Caption>>, hs: seq<seq<Caption>>)
    ensures Flatten(gs + hs) == Flatten(gs) + Flatten(hs)
    decreases |hs|
  {
    if hs == [] {
      assert gs + hs == gs;
    } else {
      var init, last := hs[..|hs| - 1], hs[|hs| - 1];
      assert Flatten(gs + hs) == Flatten(gs + init) + last by {
        assert (gs + hs)[..|gs + hs| - 1] == gs + init;
        assert (gs + hs)[|gs + hs| - 1] == last;
      }
      assert Flatten(gs + init) == Flatten(gs) + Flatten(init) by {
        FlattenAppend(gs, init);
      }
      assert Flatten(hs) == Flatten(init) + last;
      AppendAssoc(Flatten(gs), Flatten(init), last);
    }
  }

  lemma {:induction false} FlattenSingletons(cs: seq<Caption>)
    ensures Flatten(Singletons(cs)) == cs
    decreases |cs|
  {
    if cs != [] {
      assert Singletons(cs)[..|cs| - 1] == Singletons(cs[..|cs| - 1]);
      FlattenSingletons(cs[..|cs| - 1]);
    }
  }

  /** A step adds the caption's pieces at the end of the flattened groups
      and closes one group fewer than it has pieces. */
  lemma StepFacts(g: Grouping, c: Caption, text: string, d: string)
    requires |d| > 0
    ensures Flatten(Step(g, c, text, d).All()) == Flatten(g.All()) + Pieces(c, text, d)
    ensures |Step(g, c, text, d).closed| == |g.closed| + |Pieces(c, text, d)| - 1
  {
    var ps := Pieces(c, text, d);
    FlattenAppend(g.closed, [g.current]);
    FlattenOne(g.current);
    if |ps| == 1 {
      StepOnePiece(g, c, text, d);
    } else {
      StepManyPieces(g, ps, Step(g, c, text, d));
    }
  }

  lemma FlattenOne(cs: seq<Caption>)
    ensures Flatten([cs]) == cs
  {
    assert [cs][..0] == [];
  }

  lemma StepOnePiece(g: Grouping, c: Caption, text: string, d: string)
    requires |d| > 0 && |Pieces(c, text, d)| == 1
    ensures Flatten(Step(g, c, text, d).All()) == Flatten(g.closed) + g.current + [c]
    ensures Pieces(c, text, d) == [c]
  {
    FlattenAppend(g.closed, [g.current + [c]]);
    FlattenOne(g.current + [c]);
    AppendAssoc(Flatten(g.closed), g.current, [c]);
  }

  lemma StepManyPieces(g: Grouping, ps: seq<Caption>, g': Grouping)
    requires |ps| > 1
    requires g' == Grouping(g.closed + [g.current + [ps[0]]] + Singletons(ps[1..|ps| - 1]), [ps[|ps| - 1]])
    ensures Flatten(g'.All()) == Flatten(g.closed) + g.current + ps
  {
    var n := |ps|;
    var mid := Singletons(ps[1..n - 1]);
    var last: seq<seq<Caption>> := [[ps[n - 1]]];
    var first: seq<seq<Caption>> := [g.current + [ps[0]]];
    var a := g.closed + first;
    assert g'.All() == (a + mid) + last;
    assert Flatten(g'.All()) == Flatten(a + mid) + [ps[n - 1]] by {
      FlattenAppend(a + mid, last);
      FlattenOne([ps[n - 1]]);
    }
    assert Flatten(a + mid) == Flatten(a) + ps[1..n - 1] by {
      FlattenAppend(a, mid);
      FlattenSingletons(ps[1..n - 1]);
    }
    assert Flatten(a) == Flatten(g.closed) + (g.current + [ps[0]]) by {
      FlattenAppend(g.closed, first);
      FlattenOne(g.current + [ps[0]]);
    }
    assert [ps[0]] + ps[1..n - 1] + [ps[n - 1]] == ps;
    var f, m := Flatten(g.closed), ps[1..n - 1];
    AppendAssoc(f, g.current, [ps[0]]);
    AppendAssoc(f + g.current, [ps[0]], m);
    AppendAssoc(f + g.current, [ps[0]] + m, [ps[n - 1]]);
  }

  /** The grouping fails exactly when some caption has no text. */
  lemma {:induction false} GroupedOkIff(cs: seq<Caption>, d: string)
    requires |d| > 0
    ensures Grouped(cs, d).Ok? <==> forall i :: 0 <= i < |cs| ==> CaptionText(cs[i]).Ok?
    ensures Grouped(cs, d).Err? ==> Grouped(cs, d).error == NotText
    decreases |cs|
  {
    if cs != [] {
      var init, c := cs[..|cs| - 1], cs[|cs| - 1];
      assert Grouped(init, d).Ok? <==> forall i :: 0 <= i < |init| ==> CaptionText(init[i]).Ok? by {
        GroupedOkIff(init, d);
      }
      assert Grouped(init, d).Err? ==> Grouped(init, d).error == NotText by {
        GroupedOkIff(init, d);
      }
      assert Grouped(cs, d).Ok? <==> Grouped(init, d).Ok? && CaptionText(c).Ok?;
      AllTextsSnoc(cs, init);
    }
  }

  lemma AllTextsSnoc(cs: seq<Caption>, init: seq<Caption>)
    requires cs != [] && init == cs[..|cs| - 1]
    ensures (forall i :: 0 <= i < |cs| ==> CaptionText(cs[i]).Ok?)
            <==> (forall i :: 0 <= i < |init| ==> CaptionText(init[i]).Ok?) && CaptionText(cs[|cs| - 1]).Ok?
  {
    assert forall i :: 0 <= i < |init| ==> init[i] == cs[i];
  }

  /** Otherwise its groups list every caption's pieces in input order, and it
      has closed one group per cut. */
  lemma {:induction false} GroupedFacts(cs: seq<Caption>, d: string)
    requires |d| > 0 && Grouped(cs, d).Ok?
    ensures Flatten(Grouped(cs, d).value.All()) == Derived(cs, d)
    ensures |Grouped(cs, d).value.closed| == Cuts(cs, d)
    decreases |cs|
  {
    if cs == [] {
      var none: seq<seq<Caption>> := [[]];
      assert Grouped(cs, d).value.All() == none && none[..0] == [];
    } else {
      var init, c := cs[..|cs| - 1], cs[|cs| - 1];
      GroupedFacts(init, d);
      StepFacts(Grouped(init, d).value, c, TextOf(c), d);
    }
  }

  /** What the constructor leaves in `caption_groups`: the trailing group is
      always added; when the first group's first caption has the empty text
      the whole first group is dropped; with no group to read that caption
      from, reading it throws. */
  function Finish(g: Grouping): (r: Result<seq<seq<Caption>>>)
    ensures r.Err? <==> g.All()[0] == []
    ensures r.Ok? && TextOf(g.All()[0][0]) == "" ==> r.value == g.All()[1..]
    ensures r.Ok? && TextOf(g.All()[0][0]) != "" ==> r.value == g.All()
  {
    var groups := g.All();
    if groups[0] == [] then Err(TypeError("cannot read property 'draw_type' of undefined"))
    else if TextOf(groups[0][0]) == "" then Ok(groups[1..])
    else Ok(groups)
  }

  /** The `CaptionTrack` constructor's grouping of `intervals` on the
      delimiter `d`. */
  method CaptionGroups(cs: seq<Caption>, d: string) returns (r: Result<seq<seq<Caption>>>)
    requires |d| > 0
    ensures r == match Grouped(cs, d) case Err(e) => Err(e) case Ok(g) => Finish(g)
  {
    var grouped := GroupCaptions(cs, d);
    if grouped.Err? {
      return Err(grouped.error);
    }
    var groups := grouped.value.closed + [grouped.value.current];
    if groups[0] == [] {
      return Err(TypeError("cannot read property 'draw_type' of undefined"));
    }
    if TextOf(groups[0][0]) == "" {
      groups := groups[1..];
    }
    return Ok(groups);
  }

  /** The constructor's loop over the captions: each caption with a text is
      added to the grouping; the first without one stops the constructor. */
  method GroupCaptions(cs: seq<Caption>, d: string) returns (r: Result<Grouping>)
    requires |d| > 0
    ensures r == Grouped(cs, d)
  {
    var groups: seq<seq<Caption>> := [];
    var current: seq<Caption> := [];
    var n := 0;
    while n < |cs|
      invariant 0 <= n <= |cs|
      invariant Grouped(cs[..n], d) == Ok(Grouping(groups, current))
    {
      var c := cs[n];
      var text := CaptionText(c);
      if text.Err? {
        GroupedStops(cs, n, d);
        return Err(text.error);
      }
      GroupedStep(cs, n, d, Grouping(groups, current));
      var parts := Text.Split(text.value, d);
      if |parts| == 1 {
        StepOneText(Grouping(groups, current), c, text.value, d);
        current := current + [c];
      } else {
        groups, current := AddPieces(groups, current, c, text.value, d);
      }
      n := n + 1;
    }
    PrefixAll(cs);
    return Ok(Grouping(groups, current));
  }

  /** A caption without a text makes the whole grouping fail with its error. */
  lemma GroupedStops(cs: seq<Caption>, n: nat, d: string)
    requires |d| > 0 && n < |cs| && CaptionText(cs[n]).Err?
    ensures Grouped(cs, d) == Err(CaptionText(cs[n]).error)
  {
    assert CaptionText(cs[n]).error == NotText;
    GroupedErrLater(cs, n + 1, d);
    GroupedOkIff(cs, d);
  }

  /** The grouping of the first `n + 1` captions, from that of the first `n`. */
  lemma GroupedStep(cs: seq<Caption>, n: nat, d: string, g: Grouping)
    requires |d| > 0 && n < |cs| && Grouped(cs[..n], d) == Ok(g) && CaptionText(cs[n]).Ok?
    ensures Grouped(cs[..n + 1], d) == Ok(Step(g, cs[n], CaptionText(cs[n]).value, d))
  {
    PrefixSnoc(cs, n);
    GroupedNext(cs[..n], cs[n], d, g);
  }

  /** A caption without the delimiter joins the current group. */
  lemma StepOneText(g: Grouping, c: Caption, text: string, d: string)
    requires |d| > 0 && |Text.Split(text, d)| == 1
    ensures Step(g, c, text, d) == Grouping(g.closed, g.current + [c])
  {
  }

  /** The grouping of one more caption, when that caption has a text. */
  lemma GroupedNext(init: seq<Caption>, c: Caption, d: string, g: Grouping)
    requires |d| > 0 && Grouped(init, d) == Ok(g) && CaptionText(c).Ok?
    ensures Grouped(init + [c], d) == Ok(Step(g, c, CaptionText(c).value, d))
  {
    var cs := init + [c];
    assert cs[..|cs| - 1] == init;
    assert cs[|cs| - 1] == c;
  }

  /** The constructor's inner loop over the pieces of one caption whose text
      holds the delimiter: each piece joins the current group, and every
      piece but the last closes it. */
  method AddPieces(groups: seq<seq<Caption>>, current: seq<Caption>, c: Caption, text: string, d: string)
    returns (groups': seq<seq<Caption>>, current': seq<Caption>)
    requires |d| > 0 && |Text.Split(text, d)| > 1
    ensures Grouping(groups', current') == Step(Grouping(groups, current), c, text, d)
  {
    var parts := Text.Split(text, d);
    ghost var ps := Pieces(c, text, d);
    groups', current' := groups, current;
    var i := 0;
    while i < |parts|
      invariant 0 <= i <= |parts|
      invariant i == 0 ==> groups' == groups && current' == current
      invariant 0 < i < |parts| ==> groups' == groups + [current + [ps[0]]] + Singletons(ps[1..i]) && current' == []
      invariant i == |parts| ==> groups' == groups + [current + [ps[0]]] + Singletons(ps[1..i - 1]) && current' == [ps[i - 1]]
    {
      var piece := WithText(c, PartText(parts, i, d));
      assert ps[i] == piece;
      current' := current' + [piece];
      if i != |parts| - 1 {
        if i == 0 {
          assert Singletons(ps[1..1]) == [];
        } else {
          assert current' == [ps[i]];
          SingletonsSnoc(ps, i);
          AppendAssoc(groups + [current + [ps[0]]], Singletons(ps[1..i]), [[ps[i]]]);
        }
        groups' := groups' + [current'];
        current' := [];
      }
      i := i + 1;
    }
  }

  lemma SingletonsSnoc(ps: seq<Caption>, i: nat)
    requires 1 <= i < |ps|
    ensures Singletons(ps[1..i + 1]) == Singletons(ps[1..i]) + [[ps[i]]]
  {
    assert ps[1..i + 1] == ps[1..i] + [ps[i]];
  }

  lemma {:induction false} GroupedErrLater(cs: seq<Caption>, n: nat, d: string)
    requires |d| > 0 && 0 < n <= |cs| && CaptionText(cs[n - 1]).Err?
    ensures Grouped(cs, d).Err?
    decreases |cs|
  {
    if n < |cs| {
      assert cs[..|cs| - 1][n - 1] == cs[n - 1];
      GroupedErrLater(cs[..|cs| - 1], n, d);
    }
  }

  /** A non-empty list with texts never leaves the first group empty, and
      the first group's first caption has the empty text exactly when the
      first caption's text is empty or starts with the delimiter. */
  lemma FirstGroupDropped(cs: seq<Caption>, d: string)
    requires |d| > 0 && cs != [] && Grouped(cs, d).Ok?
    ensures Grouped(cs, d).value.All()[0] != []
    ensures TextOf(Grouped(cs, d).value.All()[0][0]) == "" <==> TextOf(cs[0]) == "" || Text.StartsWith(TextOf(cs[0]), d)
  {
    FirstGroupStart(cs, d);
    FirstPieceEmpty(TextOf(cs[0]), d);
    var ps := Pieces(cs[0], TextOf(cs[0]), d);
    assert CaptionText(cs[0]).Ok? by {
      GroupedOkIff(cs, d);
    }
    if |ps| != 1 {
      assert TextOf(ps[0]) == PartText(Text.Split(TextOf(cs[0]), d), 0, d);
    }
  }

  /** The first group starts with the first piece of the first caption. */
  lemma {:induction false} FirstGroupStart(cs: seq<Caption>, d: string)
    requires |d| > 0 && cs != [] && Grouped(cs, d).Ok?
    ensures Grouped(cs, d).value.All()[0] != []
    ensures Grouped(cs, d).value.All()[0][0] == Pieces(cs[0], TextOf(cs[0]), d)[0]
    decreases |cs|
  {
    var init := cs[..|cs| - 1];
    var g := Grouped(init, d).value;
    var c := cs[|cs| - 1];
    if init == [] {
      assert c == cs[0];
    } else {
      assert init[0] == cs[0];
      FirstGroupStart(init, d);
      if g.closed == [] {
        assert g.All()[0] == g.current;
      }
    }
  }

  /** The first piece of a text is empty exactly when the text is empty or
      starts with the delimiter. */
  lemma FirstPieceEmpty(s: string, d: string)
    requires |d| > 0
    ensures Text.Split(s, d)[0] == "" <==> s == "" || Text.StartsWith(s, d)
  {
  }

  /** `t1 >= cur_time` for the last caption of a group. */
  predicate Reaches(group: seq<Caption>, time: real)
  {
    group != [] && group[|group| - 1].bounds.t1.Some? && group[|group| - 1].bounds.t1.value >= time
  }

  /** The render's search for the group to scroll to: the first group whose
      last caption starts at or after the play time, or group 0 when there
      is none. Reading the last caption of an empty group throws, and so does
      the render when there are no groups at all. */
  method CurrentGroup(groups: seq<seq<Caption>>, time: real) returns (r: Result<nat>)
    ensures r.Err? <==> groups == [] || exists j :: (0 <= j < |groups| && groups[j] == [] &&
                          forall k :: 0 <= k < j ==> groups[k] != [] && !Reaches(groups[k], time))
    ensures r.Ok? ==> r.value < |groups| && forall k :: 0 <= k < r.value ==> groups[k] != [] && !Reaches(groups[k], time)
    ensures r.Ok? && r.value > 0 ==> Reaches(groups[r.value], time)
    ensures r.Ok? && r.value == 0 ==> Reaches(groups[0], time) || forall k :: 0 <= k < |groups| ==> groups[k] != [] && !Reaches(groups[k], time)
  {
    if groups == [] {
      return Err(TypeError("cannot read property 'current' of undefined"));
    }
    var i := 0;
    while i < |groups|
      invariant 0 <= i <= |groups|
      invariant forall k :: 0 <= k < i ==> groups[k] != [] && !Reaches(groups[k], time)
    {
      if groups[i] == [] {
        return Err(TypeError("cannot read property 'bounds' of undefined"));
      }
      if Reaches(groups[i], time) {
        return Ok(i);
      }
      i := i + 1;
    }
    return Ok(0);
  }
}
