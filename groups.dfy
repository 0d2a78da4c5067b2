/**
 * The older front end's result grid (src/views/Groups.jsx): groups shown a
 * page at a time, each one selectable and ignorable by keys pressed while
 * the mouse is over it. Selection works in one of two modes: RANGE keeps a
 * start and an end index, INDIVIDUAL a set of indices. `a` labels the
 * selected groups as positive examples. Group indices are the positions in
 * the data context's group list; the groups themselves do not matter here.
 */
module Groups {
  import opened Js
  import Text

  /** `SELECT_MODES`. The setting is read with `get`, so it may be absent. */
  const RANGE: int := 0
  const INDIVIDUAL: int := 1

  function Min(a: int, b: int): int { if a <= b then a else b }
  function Max(a: int, b: int): int { if a >= b then a else b }

  /** The indices `lo`, ..., `hi - 1`. */
  function Span(lo: int, hi: int): (r: set<int>)
    ensures forall k :: k in r <==> lo <= k < hi
    decreases hi - lo
  {
    if hi <= lo then {} else Span(lo, hi - 1) + {hi - 1}
  }

  lemma SpanStep(lo: int, i: int)
    requires lo <= i
    ensures Span(lo, i + 1) == Span(lo, i) + {i}
  {
  }

  // ---------------------------------------------------------------------------
  // RANGE selection.
  // ---------------------------------------------------------------------------

  /** The last index of a range; an end of -1 means the range is its start. */
  function RangeEnd(start: int, end: int): int
  {
    if end == -1 then start else end
  }

  /** What the RANGE handlers keep true of the two ends: both unset, only a
      start, or a start before an end. */
  predicate RangeValid(start: int, end: int)
  {
    && -1 <= start
    && (start == -1 ==> end == -1)
    && (end != -1 ==> start < end)
  }

  /** `_isSelected(i)`. */
  predicate IsSelected(mode: Option<int>, start: int, end: int, selected: set<int>, i: int)
  {
    || (mode == Some(RANGE) && (start == i || (start <= i && i <= end)))
    || (mode == Some(INDIVIDUAL) && i in selected)
  }

  /** In RANGE mode the selected groups are exactly the indices from the
      start to the end (the start alone when there is no end), and none when
      there is no start. */
  lemma RangeSelectionIsInterval(start: int, end: int, selected: set<int>, i: nat)
    requires RangeValid(start, end)
    ensures start == -1 ==> !IsSelected(Some(RANGE), start, end, selected, i)
    ensures start != -1 ==> (IsSelected(Some(RANGE), start, end, selected, i) <==> start <= i <= RangeEnd(start, end))
  {
  }

  /** `_onSelect(e)` in RANGE mode: the first click sets the start, clicking
      the start again clears the range, a click before the start moves the
      start there (the old start becoming the end when there was none), and
      any other click sets the end. The range stays well formed and always
      holds the clicked group afterwards unless it was cleared. */
  function RangeSelect(start: int, end: int, e: nat): (r: (int, int))
    ensures RangeValid(start, end) ==> RangeValid(r.0, r.1)
    ensures start == e ==> r == (-1, -1)
    ensures start != e ==> r.0 == (if start == -1 then e else Min(start, e))
    ensures RangeValid(start, end) && start != e ==> r.0 <= e <= RangeEnd(r.0, r.1)
  {
    if start == -1 then (e, end)
    else if e == start then (-1, -1)
    else if e < start then (e, if end == -1 then start else end)
    else (start, e)
  }

  // ---------------------------------------------------------------------------
  // INDIVIDUAL selection and ignoring.
  // ---------------------------------------------------------------------------

  /** INDIVIDUAL `_onSelect(e)` (with `mine` the selected set and `other` the
      ignored set) and `_onIgnore(e)` (the other way round): `e` changes
      membership of `mine`, and leaves `other` when it joins `mine`. */
  function Toggled(mine: set<int>, other: set<int>, e: int): (r: (set<int>, set<int>))
    ensures (e in r.0) == (e !in mine)
    ensures e in r.0 ==> e !in r.1
    ensures e !in r.0 ==> (e in r.1 <==> e in other)
    ensures forall i :: i != e ==> (i in r.0 <==> i in mine) && (i in r.1 <==> i in other)
    ensures mine !! other ==> r.0 !! r.1
  {
    if e in mine then (mine - {e}, other) else (mine + {e}, other - {e})
  }

  /** Toggling twice brings `mine` back, and `e` has left `other`. */
  lemma ToggledTwice(mine: set<int>, other: set<int>, e: int)
    ensures var once := Toggled(mine, other, e);
            var twice := Toggled(once.0, once.1, e);
            && twice.0 == mine
            && twice.1 == other - {e}
  {
  }

  /** `_onSelectPage` (with `mine` the selected set) and `_onIgnorePage` (with
      `mine` the ignored set) on the page's indices `p`: when every one is in
      `mine` they all leave it, otherwise they all join it; they leave
      `other` in both cases. */
  function PageToggled(mine: set<int>, other: set<int>, p: set<int>): (r: (set<int>, set<int>))
    ensures p <= r.0 || p !! r.0
    ensures p <= mine ==> p !! r.0
    ensures !(p <= mine) ==> p <= r.0
    ensures p !! r.1
    ensures forall i :: i !in p ==> (i in r.0 <==> i in mine) && (i in r.1 <==> i in other)
    ensures mine !! other ==> r.0 !! r.1
  {
    if p <= mine then (mine - p, other - p) else (mine + p, other - p)
  }

  // ---------------------------------------------------------------------------
  // Labelling with `a`.
  // ---------------------------------------------------------------------------

  /** The groups `a` labels, as written: nothing without a RANGE start; in
      RANGE mode the unignored indices of the range; otherwise the branch
      meant for INDIVIDUAL compares the mode with `SELECT_MODES.INDIVDIUAL`,
      which is `undefined`, so it runs only when the mode setting is
      absent. */
  function LabelledAsWritten(mode: Option<int>, start: int, end: int, selected: set<int>, ignored: set<int>): (r: set<int>)
    ensures mode == Some(INDIVIDUAL) ==> r == {}
    ensures mode == Some(RANGE) && start != -1 ==> r == Span(start, RangeEnd(start, end) + 1) - ignored
  {
    if start == -1 then {}
    else if mode == Some(RANGE) then Span(start, RangeEnd(start, end) + 1) - ignored
    else if mode == None then selected
    else {}
  }

  /** In INDIVIDUAL mode `a` labels nothing at all, although groups are
      selected (and a successful save then clears the selection). */
  lemma IndividualLabelsNothing()
    ensures var selected := {3};
            && IsSelected(Some(INDIVIDUAL), -1, -1, selected, 3)
            && LabelledAsWritten(Some(INDIVIDUAL), -1, -1, selected, {}) == {}
  {
  }

  /** The groups `a` is meant to label: the selected groups that are not
      ignored, in either mode. */
  function Labelled(mode: Option<int>, start: int, end: int, selected: set<int>, ignored: set<int>): (r: set<int>)
    ensures mode == Some(INDIVIDUAL) ==> r == selected - ignored
    ensures mode == Some(RANGE) && start != -1 ==> r == Span(start, RangeEnd(start, end) + 1) - ignored
    ensures mode == Some(RANGE) && start == -1 ==> r == {}
  {
    if mode == Some(RANGE) then
      if start == -1 then {} else Span(start, RangeEnd(start, end) + 1) - ignored
    else if mode == Some(INDIVIDUAL) then selected - ignored
    else {}
  }

  /** `a` labels exactly the selected groups that are not ignored. */
  lemma LabelledAreSelected(mode: Option<int>, start: int, end: int, selected: set<int>, ignored: set<int>, i: nat)
    requires RangeValid(start, end)
    ensures i in Labelled(mode, start, end, selected, ignored) <==>
              IsSelected(mode, start, end, selected, i) && i !in ignored
  {
    RangeSelectionIsInterval(start, end, selected, i);
  }

  // ---------------------------------------------------------------------------
  // Paging.
  // ---------------------------------------------------------------------------

  /** `_numPages`: the index of the last page, `floor((n - 1) / rpp)`; -1 for
      no groups. (Dafny's `/` floors for a positive divisor, as
      `Math.floor` of the quotient does.) */
  function LastPage(n: nat, rpp: int): (r: int)
    requires rpp > 0
    ensures n == 0 ==> r == -1
    ensures n > 0 ==> 0 <= r && r * rpp < n <= (r + 1) * rpp
  {
    (n - 1) / rpp
  }

  /** The indices shown on page `page`. */
  function Visible(page: int, rpp: int, n: nat): (r: set<int>)
    ensures forall i :: i in r <==> rpp * page <= i < Min(rpp * (page + 1), n)
  {
    Span(rpp * page, Min(rpp * (page + 1), n))
  }

  /** `_nextPage`, `_prevPage` and typing a page number (counted from 1). */
  function NextPage(page: int, last: int): (r: int)
    ensures r <= last && (page < last ==> r == page + 1)
  {
    Min(page + 1, last)
  }

  function PrevPage(page: int): (r: int)
    ensures r >= 0 && (page > 0 ==> r == page - 1)
  {
    Max(page - 1, 0)
  }

  /** Enter in the page box: `parseInt` of the text, counted from 1, clamped
      to the pages; text `parseInt` cannot read gives the `NaN` page, `None`. */
  function TypedPage(text: string, last: int): (r: Option<int>)
    ensures r.None? <==> Text.JsParseInt(text).None?
    ensures r.Some? ==> r.value <= last && (0 <= last ==> 0 <= r.value)
    ensures var typed := Text.JsParseInt(text);
            typed.Some? && 1 <= typed.value <= last + 1 ==> r == Some(typed.value - 1)
  {
    match Text.JsParseInt(text)
    case None => None
    case Some(typed) => Some(Min(Max(typed - 1, 0), last))
  }

  /** Group `i` is on page `page` exactly when `page` is `i / rpp`. */
  lemma OnPage(i: nat, rpp: int, page: int)
    requires rpp > 0
    ensures rpp * page <= i < rpp * (page + 1) <==> page == i / rpp
  {
    var q := i / rpp;
    assert rpp * q <= i < rpp * (q + 1);
    if page < q {
      MulMonotone(rpp, page + 1, q);
    } else if page > q {
      MulMonotone(rpp, q + 1, page);
    }
  }

  lemma MulMonotone(rpp: int, a: int, b: int)
    requires rpp > 0 && a <= b
    ensures rpp * a <= rpp * b
  {
    assert rpp * b - rpp * a == rpp * (b - a);
  }

  lemma DivMonotone(a: nat, b: nat, rpp: int)
    requires rpp > 0 && a <= b
    ensures a / rpp <= b / rpp
  {
    var qa, qb := a / rpp, b / rpp;
    assert rpp * qa <= a;
    assert b < rpp * (qb + 1);
    if qa > qb {
      MulMonotone(rpp, qb + 1, qa);
    }
  }

  /** With at least one group, every group is shown on exactly one page,
      page `i / rpp`, which exists; and the buttons never leave the pages
      that exist. */
  lemma PagesCoverGroups(n: nat, rpp: int, i: nat, page: int)
    requires rpp > 0 && i < n
    requires 0 <= page <= LastPage(n, rpp)
    ensures 0 <= i / rpp <= LastPage(n, rpp)
    ensures i in Visible(page, rpp, n) <==> page == i / rpp
    ensures 0 <= NextPage(page, LastPage(n, rpp)) <= LastPage(n, rpp)
    ensures 0 <= PrevPage(page) <= LastPage(n, rpp)
  {
    DivMonotone(i, n - 1, rpp);
    OnPage(i, rpp, page);
  }

  /** With no groups, the next-page button moves to page -1, which shows the
      indices -rpp to -1: groups that do not exist. */
  lemma EmptyNextPageGoesNegative(rpp: int)
    requires rpp > 0
    ensures NextPage(0, LastPage(0, rpp)) == -1
    ensures -1 in Visible(-1, rpp, 0) && -rpp in Visible(-1, rpp, 0)
  {
  }

  // ---------------------------------------------------------------------------
  // The grid.
  // ---------------------------------------------------------------------------

  datatype ColorClass = Ignored | Selected | Positive | Negative | Plain

  class GroupsView {
    const numGroups: nat
    const resultsPerPage: int
    const selectMode: Option<int>

    var page: int
    var selectedStart: int
    var selectedEnd: int
    var selected: set<int>
    var ignored: set<int>
    var positiveEx: set<int>
    var negativeEx: set<int>

    /** A group is never both selected and ignored, and the range is well
        formed. */
    predicate Valid()
      reads this
    {
      RangeValid(selectedStart, selectedEnd) && selected !! ignored
    }

    constructor (numGroups: nat, resultsPerPage: int, selectMode: Option<int>)
      ensures Valid()
      ensures this.numGroups == numGroups && this.resultsPerPage == resultsPerPage && this.selectMode == selectMode
      ensures page == 0 && selectedStart == -1 && selectedEnd == -1
      ensures selected == {} && ignored == {} && positiveEx == {} && negativeEx == {}
    {
      this.numGroups := numGroups;
      this.resultsPerPage := resultsPerPage;
      this.selectMode := selectMode;
      page := 0;
      selectedStart := -1;
      selectedEnd := -1;
      selected := {};
      ignored := {};
      positiveEx := {};
      negativeEx := {};
    }

    /** `_getColorClass(i)`: ignored wins over selected, selected over
        positive, positive over negative. */
    function ColorClassOf(i: int): (c: ColorClass)
      reads this
      ensures c == Ignored <==> i in ignored
      ensures c == Selected <==> i !in ignored && IsSelected(selectMode, selectedStart, selectedEnd, selected, i)
      ensures c == Positive <==>
                i !in ignored && !IsSelected(selectMode, selectedStart, selectedEnd, selected, i) && i in positiveEx
      ensures c == Negative <==>
                i !in ignored && !IsSelected(selectMode, selectedStart, selectedEnd, selected, i)
                && i !in positiveEx && i in negativeEx
    {
      if i in ignored then Ignored
      else if IsSelected(selectMode, selectedStart, selectedEnd, selected, i) then Selected
      else if i in positiveEx then Positive
      else if i in negativeEx then Negative
      else Plain
    }

    /** `_onSelect(e)`. */
    method OnSelect(e: nat)
      requires Valid()
      modifies this
      ensures Valid() && page == old(page) && positiveEx == old(positiveEx) && negativeEx == old(negativeEx)
      ensures selectMode == Some(RANGE) ==>
                && (selectedStart, selectedEnd) == RangeSelect(old(selectedStart), old(selectedEnd), e)
                && selected == old(selected) && ignored == old(ignored)
      ensures selectMode == Some(INDIVIDUAL) ==>
                && (selected, ignored) == Toggled(old(selected), old(ignored), e)
                && selectedStart == old(selectedStart) && selectedEnd == old(selectedEnd)
      ensures selectMode != Some(RANGE) && selectMode != Some(INDIVIDUAL) ==>
                && selected == old(selected) && ignored == old(ignored)
                && selectedStart == old(selectedStart) && selectedEnd == old(selectedEnd)
    {
      if selectMode == Some(RANGE) {
        if selectedStart == -1 {
          selectedStart := e;
        } else if e == selectedStart {
          selectedStart, selectedEnd := -1, -1;
        } else if e < selectedStart {
          if selectedEnd == -1 {
            selectedEnd := selectedStart;
          }
          selectedStart := e;
        } else {
          selectedEnd := e;
        }
      } else if selectMode == Some(INDIVIDUAL) {
        if e in selected {
          selected := selected - {e};
        } else {
          selected := selected + {e};
          ignored := ignored - {e};
        }
      }
    }

    /** `_onIgnore(e)`. */
    method OnIgnore(e: int)
      requires Valid()
      modifies this
      ensures Valid() && (ignored, selected) == Toggled(old(ignored), old(selected), e)
      ensures selectedStart == old(selectedStart) && selectedEnd == old(selectedEnd) && page == old(page)
      ensures positiveEx == old(positiveEx) && negativeEx == old(negativeEx)
    {
      if e in ignored {
        ignored := ignored - {e};
      } else {
        ignored := ignored + {e};
        selected := selected - {e};
      }
    }

    /** `_onSelectUpTo(e)`: every index from 0 to `e` that is not ignored
        joins the selection. */
    method OnSelectUpTo(e: int)
      requires Valid()
      modifies this
      ensures Valid() && selected == old(selected) + (Span(0, e + 1) - ignored)
      ensures ignored == old(ignored) && selectedStart == old(selectedStart) && selectedEnd == old(selectedEnd)
      ensures page == old(page) && positiveEx == old(positiveEx) && negativeEx == old(negativeEx)
    {
      var i := 0;
      while i <= e
        invariant 0 <= i <= Max(0, e + 1)
        invariant selected == old(selected) + (Span(0, i) - ignored)
        invariant ignored == old(ignored) && selectedStart == old(selectedStart) && selectedEnd == old(selectedEnd)
        invariant page == old(page) && positiveEx == old(positiveEx) && negativeEx == old(negativeEx)
      {
        SpanStep(0, i);
        if i !in selected && i !in ignored {
          selected := selected + {i};
        }
        i := i + 1;
      }
      assert Span(0, i) == Span(0, e + 1);
    }

    /** The page's indices, `minGroup` to `maxGroup`. */
    function PageSpan(): (p: set<int>)
      reads this
      ensures forall i :: i in p <==> page * resultsPerPage <= i < Min(page * resultsPerPage + resultsPerPage, numGroups)
    {
      Span(page * resultsPerPage, Min(page * resultsPerPage + resultsPerPage, numGroups))
    }

    /** Whether every index from `lo` up to `hi - 1` is in `s`. */
    static method AllIn(s: set<int>, lo: int, hi: int) returns (all: bool)
      ensures all <==> Span(lo, hi) <= s
    {
      all := true;
      var i := lo;
      while i < hi
        invariant lo <= i <= Max(lo, hi)
        invariant all <==> Span(lo, i) <= s
      {
        SpanStep(lo, i);
        all := all && i in s;
        i := i + 1;
      }
      assert Span(lo, i) == Span(lo, hi);
    }

    /** `_onSelectPage`. */
    method OnSelectPage()
      requires Valid()
      modifies this
      ensures Valid() && (selected, ignored) == PageToggled(old(selected), old(ignored), old(PageSpan()))
      ensures selectedStart == old(selectedStart) && selectedEnd == old(selectedEnd) && page == old(page)
      ensures positiveEx == old(positiveEx) && negativeEx == old(negativeEx)
    {
      var minGroup := page * resultsPerPage;
      var end := Min(minGroup + resultsPerPage, numGroups);
      var allSelected := AllIn(selected, minGroup, end);
      ghost var s0, ig0 := selected, ignored;
      var i := minGroup;
      while i < end
        invariant minGroup <= i <= Max(minGroup, end)
        invariant allSelected ==> selected == s0 - Span(minGroup, i)
        invariant !allSelected ==> selected == s0 + Span(minGroup, i)
        invariant ignored == ig0 - Span(minGroup, i)
        invariant selectedStart == old(selectedStart) && selectedEnd == old(selectedEnd) && page == old(page)
        invariant positiveEx == old(positiveEx) && negativeEx == old(negativeEx)
      {
        SpanStep(minGroup, i);
        if allSelected {
          selected := selected - {i};
          ignored := ignored - {i};
        } else {
          selected := selected + {i};
          ignored := ignored - {i};
        }
        i := i + 1;
      }
      assert Span(minGroup, i) == Span(minGroup, end);
    }

    /** `_onIgnorePage`. */
    method OnIgnorePage()
      requires Valid()
      modifies this
      ensures Valid() && (ignored, selected) == PageToggled(old(ignored), old(selected), old(PageSpan()))
      ensures selectedStart == old(selectedStart) && selectedEnd == old(selectedEnd) && page == old(page)
      ensures positiveEx == old(positiveEx) && negativeEx == old(negativeEx)
    {
      var minGroup := page * resultsPerPage;
      var end := Min(minGroup + resultsPerPage, numGroups);
      var allIgnored := AllIn(ignored, minGroup, end);
      ghost var s0, ig0 := selected, ignored;
      var i := minGroup;
      while i < end
        invariant minGroup <= i <= Max(minGroup, end)
        invariant allIgnored ==> ignored == ig0 - Span(minGroup, i)
        invariant !allIgnored ==> ignored == ig0 + Span(minGroup, i)
        invariant selected == s0 - Span(minGroup, i)
        invariant selectedStart == old(selectedStart) && selectedEnd == old(selectedEnd) && page == old(page)
        invariant positiveEx == old(positiveEx) && negativeEx == old(negativeEx)
      {
        SpanStep(minGroup, i);
        if allIgnored {
          ignored := ignored - {i};
          selected := selected - {i};
        } else {
          ignored := ignored + {i};
          selected := selected - {i};
        }
        i := i + 1;
      }
      assert Span(minGroup, i) == Span(minGroup, end);
    }

    /** `_nextPage` and `_prevPage`. */
    method OnNextPage()
      requires resultsPerPage > 0
      modifies this
      ensures page == NextPage(old(page), LastPage(numGroups, resultsPerPage))
      ensures selected == old(selected) && ignored == old(ignored)
      ensures selectedStart == old(selectedStart) && selectedEnd == old(selectedEnd)
      ensures positiveEx == old(positiveEx) && negativeEx == old(negativeEx)
    {
      page := Min(page + 1, LastPage(numGroups, resultsPerPage));
    }

    method OnPrevPage()
      modifies this
      ensures page == PrevPage(old(page))
      ensures selected == old(selected) && ignored == old(ignored)
      ensures selectedStart == old(selectedStart) && selectedEnd == old(selectedEnd)
      ensures positiveEx == old(positiveEx) && negativeEx == old(negativeEx)
    {
      page := Max(page - 1, 0);
    }

    /** `a`, with the INDIVIDUAL branch as intended: the groups to label are
        returned, and they join `positive_ex` at once (the set is changed in
        place before the save is answered, and stays changed if it fails).
        In RANGE mode the source's loop runs from the start to the end. */
    method LabelKey() returns (labelled: set<int>)
      requires Valid()
      modifies this
      ensures labelled == Labelled(selectMode, old(selectedStart), old(selectedEnd), old(selected), old(ignored))
      ensures positiveEx == old(positiveEx) + labelled
      ensures selected == old(selected) && ignored == old(ignored) && negativeEx == old(negativeEx)
      ensures selectedStart == old(selectedStart) && selectedEnd == old(selectedEnd) && page == old(page)
    {
      labelled := {};
      if selectMode == Some(RANGE) && selectedStart != -1 {
        var end := RangeEnd(selectedStart, selectedEnd);
        var i := selectedStart;
        while i <= end
          invariant selectedStart <= i <= end + 1
          invariant labelled == Span(selectedStart, i) - ignored
          invariant positiveEx == old(positiveEx) + labelled
          invariant selected == old(selected) && ignored == old(ignored) && negativeEx == old(negativeEx)
          invariant selectedStart == old(selectedStart) && selectedEnd == old(selectedEnd) && page == old(page)
        {
          SpanStep(selectedStart, i);
          if i !in ignored {
            labelled := labelled + {i};
            positiveEx := positiveEx + {i};
          }
          i := i + 1;
        }
      } else if selectMode == Some(INDIVIDUAL) {
        labelled := selected - ignored;
        positiveEx := positiveEx + labelled;
      }
    }

    /** A successful save clears the selection. */
    method OnSaved()
      modifies this
      ensures Valid()
      ensures selectedStart == -1 && selectedEnd == -1 && selected == {}
      ensures ignored == old(ignored) && positiveEx == old(positiveEx) && negativeEx == old(negativeEx) && page == old(page)
    {
      selectedStart, selectedEnd := -1, -1;
      selected := {};
    }
  }

  /** Under the grid's invariant, the groups `a` labels are exactly the
      groups drawn as selected. */
  lemma LabelledAreShownSelected(v: GroupsView, i: nat)
    requires v.Valid()
    ensures i in Labelled(v.selectMode, v.selectedStart, v.selectedEnd, v.selected, v.ignored) <==>
              v.ColorClassOf(i) == Selected
  {
    LabelledAreSelected(v.selectMode, v.selectedStart, v.selectedEnd, v.selected, v.ignored, i);
  }

  // ---------------------------------------------------------------------------
  // The keys of one group.
  // ---------------------------------------------------------------------------

  datatype GroupAction = Expand | Select | SelectPage | SelectUpTo | Ignore | IgnorePage | NoAction

  /** The `Group` key table: Jupyter bindings or the standalone ones. */
  function KeyAction(jupyter: bool, chr: char): (a: GroupAction)
    ensures a == SelectUpTo <==> chr == '?'
  {
    if jupyter then
      if chr == '=' then Expand
      else if chr == '[' then Select
      else if chr == '{' then SelectPage
      else if chr == '?' then SelectUpTo
      else if chr == ']' then Ignore
      else if chr == '}' then IgnorePage
      else NoAction
    else
      if chr == 'f' then Expand
      else if chr == 's' then Select
      else if chr == 'S' then SelectPage
      else if chr == '?' then SelectUpTo
      else if chr == 'x' then Ignore
      else if chr == 'X' then IgnorePage
      else NoAction
  }

  /** The key bound to each action. */
  function KeyOf(jupyter: bool, a: GroupAction): (chr: char)
    requires a != NoAction
  {
    match a
    case Expand => if jupyter then '=' else 'f'
    case Select => if jupyter then '[' else 's'
    case SelectPage => if jupyter then '{' else 'S'
    case SelectUpTo => '?'
    case Ignore => if jupyter then ']' else 'x'
    case IgnorePage => if jupyter then '}' else 'X'
  }

  /** Each binding gives every action exactly one key: the table and `KeyOf`
      are inverse. */
  lemma KeyTableInverse(jupyter: bool, a: GroupAction, chr: char)
    ensures a != NoAction ==> KeyAction(jupyter, KeyOf(jupyter, a)) == a
    ensures KeyAction(jupyter, chr) != NoAction ==> KeyOf(jupyter, KeyAction(jupyter, chr)) == chr
  {
  }

  class GroupCard {
    const groupId: nat
    var expand: bool

    constructor (groupId: nat)
      ensures this.groupId == groupId && !expand
    {
      this.groupId := groupId;
      expand := false;
    }

    /** `Group._onKeyPress`: the key is looked up in the table and the grid's
        handler for the action runs on this group. */
    method KeyPress(view: GroupsView, jupyter: bool, chr: char)
      requires view.Valid()
      modifies this, view
      ensures view.Valid()
      ensures expand == (if KeyAction(jupyter, chr) == Expand then !old(expand) else old(expand))
      ensures KeyAction(jupyter, chr) == Select && view.selectMode == Some(INDIVIDUAL) ==>
                (view.selected, view.ignored) == Toggled(old(view.selected), old(view.ignored), groupId)
      ensures KeyAction(jupyter, chr) == Select && view.selectMode == Some(RANGE) ==>
                (view.selectedStart, view.selectedEnd) == RangeSelect(old(view.selectedStart), old(view.selectedEnd), groupId)
      ensures KeyAction(jupyter, chr) == Ignore ==>
                (view.ignored, view.selected) == Toggled(old(view.ignored), old(view.selected), groupId)
      ensures KeyAction(jupyter, chr) == SelectUpTo ==>
                view.selected == old(view.selected) + (Span(0, groupId + 1) - old(view.ignored))
      ensures KeyAction(jupyter, chr) == SelectPage ==>
                (view.selected, view.ignored) == PageToggled(old(view.selected), old(view.ignored), old(view.PageSpan()))
      ensures KeyAction(jupyter, chr) == IgnorePage ==>
                (view.ignored, view.selected) == PageToggled(old(view.ignored), old(view.selected), old(view.PageSpan()))
      ensures KeyAction(jupyter, chr) in {Expand, NoAction} ==>
                view.selected == old(view.selected) && view.ignored == old(view.ignored)
                && view.selectedStart == old(view.selectedStart) && view.selectedEnd == old(view.selectedEnd)
    {
      var a := KeyAction(jupyter, chr);
      if a == Expand {
        expand := !expand;
      } else if a == Select {
        view.OnSelect(groupId);
      } else if a == SelectPage {
        view.OnSelectPage();
      } else if a == Ignore {
        view.OnIgnore(groupId);
      } else if a == IgnorePage {
        view.OnIgnorePage();
      } else if a == SelectUpTo {
        view.OnSelectUpTo(groupId);
      }
    }
  }
}
