/**
 * Paging of the grid's blocks (vgridjs/src/pagination.tsx): a page index kept
 * as component state, arrow buttons and a typed page number that move it, and
 * the slice of blocks shown for it.
 *
 * The page is a JavaScript number that can become `NaN` (a typed page that
 * does not parse); `None` stands for `NaN`, and every arithmetic step and
 * comparison involving it behaves as `NaN` does.
 */
module Pagination {
  import opened Js
  import Text

  /** `Math.floor((n - 1) / blocks_per_page)`: the index of the last page. */
  function LastPage(n: nat, blocksPerPage: nat): (p: int)
    requires blocksPerPage > 0
    ensures n == 0 ==> p == -1
    ensures n > 0 ==> 0 <= p && p * blocksPerPage <= n - 1 < (p + 1) * blocksPerPage
  {
    (n - 1) / blocksPerPage
  }

  /** `Math.max(x, 0)` and `Math.min(x, y)` with `NaN` absorbing. */
  function MaxZero(x: Option<int>): Option<int>
  {
    match x
    case None => None
    case Some(v) => Some(if v > 0 then v else 0)
  }

  function MinWith(x: Option<int>, y: int): Option<int>
  {
    match x
    case None => None
    case Some(v) => Some(if v < y then v else y)
  }

  /** The blocks whose index `i` satisfies `lo <= i < hi`, in order, where the
      first block has index `offset` (the `filter` of the page's list). */
  function Window<T>(blocks: seq<T>, offset: int, lo: int, hi: int): seq<T>
    decreases |blocks|
  {
    if blocks == [] then []
    else (if lo <= offset < hi then [blocks[0]] else []) + Window(blocks[1..], offset + 1, lo, hi)
  }

  /** The blocks shown on `page`: none when the page is `NaN`. */
  function Visible<T>(blocks: seq<T>, page: Option<int>, blocksPerPage: nat): (r: seq<T>)
  {
    match page
    case None => []
    case Some(p) => Window(blocks, 0, p * blocksPerPage, (p + 1) * blocksPerPage)
  }

  function Clamp(x: int, n: nat): (c: nat)
    ensures c <= n
  {
    if x < 0 then 0 else if x > n then n else x
  }

  /** The filter keeps exactly a contiguous run of blocks: those from index
      `lo` up to but excluding `hi`, clipped to the list. */
  lemma {:induction false} WindowIsSlice<T>(blocks: seq<T>, offset: int, lo: int, hi: int)
    requires lo <= hi
    ensures Window(blocks, offset, lo, hi)
         == blocks[Clamp(lo - offset, |blocks|)..Clamp(hi - offset, |blocks|)]
    decreases |blocks|
  {
    if blocks != [] {
      var rest := blocks[1..];
      var a, b := Clamp(lo - offset, |blocks|), Clamp(hi - offset, |blocks|);
      var a', b' := Clamp(lo - offset - 1, |rest|), Clamp(hi - offset - 1, |rest|);
      assert Window(rest, offset + 1, lo, hi) == rest[a'..b'] by {
        WindowIsSlice(rest, offset + 1, lo, hi);
      }
      ClampStep(lo - offset, |blocks|);
      ClampStep(hi - offset, |blocks|);
      if lo <= offset < hi {
        assert a == 0 && a' == 0 && b == b' + 1;
        assert Window(blocks, offset, lo, hi) == [blocks[0]] + rest[..b'];
        SliceCons(blocks, b');
      } else if offset < lo {
        assert a == a' + 1 && b == b' + 1;
        assert Window(blocks, offset, lo, hi) == rest[a'..b'];
        SliceTail(blocks, a', b');
      } else {
        assert a == 0 && b == 0 && a' == 0 && b' == 0;
        assert Window(blocks, offset, lo, hi) == rest[a'..b'];
      }
    }
  }

  /** Clamping to a list one longer, one step further on. */
  lemma ClampStep(x: int, n: nat)
    requires n > 0
    ensures Clamp(x, n) == if x <= 0 then 0 else Clamp(x - 1, n - 1) + 1
  {
  }

  lemma SliceCons<T>(s: seq<T>, j: nat)
    requires j < |s|
    ensures s[..j + 1] == [s[0]] + s[1..][..j]
  {
  }

  lemma SliceTail<T>(s: seq<T>, i: nat, j: nat)
    requires i <= j < |s|
    ensures s[1..][i..j] == s[i + 1..j + 1]
  {
  }

  /** Page `p` shows exactly the blocks with index in `[p * bpp, (p + 1) * bpp)`. */
  lemma VisibleIsPage<T>(blocks: seq<T>, p: int, blocksPerPage: nat)
    ensures Visible(blocks, Some(p), blocksPerPage)
         == blocks[Clamp(p * blocksPerPage, |blocks|)..Clamp((p + 1) * blocksPerPage, |blocks|)]
  {
    assert p * blocksPerPage <= (p + 1) * blocksPerPage by {
      assert (p + 1) * blocksPerPage == p * blocksPerPage + blocksPerPage;
    }
    WindowIsSlice(blocks, 0, p * blocksPerPage, (p + 1) * blocksPerPage);
  }

  /** Every block is on some page between the first and the last. */
  lemma EveryBlockHasAPage(n: nat, blocksPerPage: nat, i: nat)
    requires blocksPerPage > 0 && i < n
    ensures var p := i / blocksPerPage;
            0 <= p <= LastPage(n, blocksPerPage) && p * blocksPerPage <= i < (p + 1) * blocksPerPage
  {
    var p := i / blocksPerPage;
    var last := LastPage(n, blocksPerPage);
    assert p * blocksPerPage + i % blocksPerPage == i;
    FactorLess(p, last + 1, blocksPerPage);
  }

  lemma FactorLess(x: int, y: int, d: nat)
    requires d > 0 && x * d < y * d
    ensures x < y
  {
    assert (y - x) * d == y * d - x * d;
  }

  /** The buttons are shown when `settings.paginate` asks for them or there
      are more than two pages. */
  function ShowButtons(paginate: bool, lastPage: int): (r: bool)
    ensures r <==> paginate || lastPage > 1
  {
    paginate || lastPage > 1
  }

  /** Two pages of blocks are shown without buttons by default. */
  lemma TwoPagesNoButtons(n: nat, blocksPerPage: nat)
    requires blocksPerPage > 0 && blocksPerPage < n <= 2 * blocksPerPage
    ensures LastPage(n, blocksPerPage) == 1
    ensures !ShowButtons(false, LastPage(n, blocksPerPage))
  {
    var p := LastPage(n, blocksPerPage);
    FactorLess(p, 2, blocksPerPage);
    FactorLess(1, p + 1, blocksPerPage);
  }

  /** Whether the page stays on a valid page when it starts on one. */
  predicate OnAPage(page: Option<int>, lastPage: int)
  {
    page.Some? && 0 <= page.value <= lastPage
  }

  class BlockPagination {
    var page: Option<int>

    constructor ()
      ensures page == Some(0)
    {
      page := Some(0);
    }

    /** The left arrow: one page back, not below the first. */
    method Prev()
      modifies this
      ensures page == MaxZero(if old(page).None? then None else Some(old(page).value - 1))
      ensures old(page).Some? ==> page.Some? && page.value >= 0
      ensures old(page).Some? && old(page).value > 0 ==> page == Some(old(page).value - 1)
    {
      if page.Some? {
        page := MaxZero(Some(page.value - 1));
      }
    }

    /** The right arrow: one page on, not past the last. */
    method Next(lastPage: int)
      modifies this
      ensures page == MinWith(if old(page).None? then None else Some(old(page).value + 1), lastPage)
      ensures OnAPage(old(page), lastPage) ==> OnAPage(page, lastPage)
      ensures old(page).Some? && old(page).value < lastPage ==> page == Some(old(page).value + 1)
    {
      if page.Some? {
        page := MinWith(Some(page.value + 1), lastPage);
      }
    }

    /** Enter in the page box: the typed one-based page number, clamped; text
        that does not parse leaves the page `NaN`. */
    method Typed(text: string, lastPage: int)
      modifies this
      ensures var typed := Text.JsParseInt(text);
              page == MinWith(MaxZero(if typed.None? then None else Some(typed.value - 1)), lastPage)
      ensures lastPage >= 0 && Text.JsParseInt(text).Some? ==> OnAPage(page, lastPage)
      ensures Text.JsParseInt(text).None? ==> page.None?
    {
      var typed := Text.JsParseInt(text);
      if typed.Some? {
        page := MinWith(MaxZero(Some(typed.value - 1)), lastPage);
      } else {
        page := None;
      }
    }
  }
}
