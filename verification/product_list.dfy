/**
 * The product list view: the page-number control (first page, last page, a window of
 * pages around the current one, ellipses where pages are skipped), the stock badge,
 * the Previous/Next clamping and the state the list keeps while it fetches a page.
 */
module ProductList {
  import opened Wrappers
  import Js
  import Api

  // ---------------------------------------------------------------------------
  // Page-number control

  /** One entry of the page-number control: a page button or an ellipsis marker. */
  datatype PageItem = Page(n: int) | Ellipsis

  function Max(a: int, b: int): int { if a >= b then a else b }

  function Min(a: int, b: int): int { if a <= b then a else b }

  /** First page of the window around `current`, after the near-the-end adjustment. */
  function RangeStart(current: int, total: int): int
  {
    if current >= total - 2 then Max(total - 3, 2) else Max(2, current - 1)
  }

  /** Last page of the window around `current`, after the near-the-start adjustment. */
  function RangeEnd(current: int, total: int): int
  {
    if current <= 3 then Min(4, total - 1) else Min(total - 1, current + 1)
  }

  /** What the range loop pushes for `i` from `lo` up to (not including) `hi`: every page but 1 and `total`. */
  function RangeItems(lo: int, hi: int, total: int): seq<PageItem>
    decreases hi - lo
  {
    if hi <= lo then []
    else RangeItems(lo, hi - 1, total) + (if hi - 1 != 1 && hi - 1 != total then [Page(hi - 1)] else [])
  }

  /** The list built before duplicate ellipses are removed. */
  function RawPages(current: int, total: int): seq<PageItem>
  {
    var start := RangeStart(current, total);
    var end := RangeEnd(current, total);
    [Page(1)]
    + (if start > 2 then [Ellipsis] else [])
    + RangeItems(start, end + 1, total)
    + (if end < total - 1 then [Ellipsis] else [])
    + (if total > 1 then [Page(total)] else [])
  }

  /** The second pass: an ellipsis is dropped when the entry kept just before it is an ellipsis. */
  function Collapse(s: seq<PageItem>): seq<PageItem>
  {
    if s == [] then []
    else
      var r := Collapse(s[..|s| - 1]);
      if s[|s| - 1].Ellipsis? && r != [] && r[|r| - 1].Ellipsis? then r else r + [s[|s| - 1]]
  }

  /** The page numbers of a list, in order, ellipses left out. */
  function Numbers(s: seq<PageItem>): seq<int>
  {
    if s == [] then []
    else Numbers(s[..|s| - 1]) + (if s[|s| - 1].Page? then [s[|s| - 1].n] else [])
  }

  /** What the control shows for `current` of `total` pages. */
  function PageWindow(current: int, total: int): seq<PageItem>
  {
    Collapse(RawPages(current, total))
  }

  ghost predicate NoAdjacentEllipses(s: seq<PageItem>)
  {
    forall i :: 0 <= i < |s| - 1 ==> !(s[i].Ellipsis? && s[i + 1].Ellipsis?)
  }

  /** Page numbers strictly increase from left to right. */
  ghost predicate Increasing(s: seq<PageItem>)
  {
    forall i, j :: 0 <= i < j < |s| && s[i].Page? && s[j].Page? ==> s[i].n < s[j].n
  }

  ghost predicate Within(s: seq<PageItem>, lo: int, hi: int)
  {
    forall i :: 0 <= i < |s| && s[i].Page? ==> lo <= s[i].n <= hi
  }

  /** Every ellipsis stands between two page buttons and hides at least one page. */
  ghost predicate EllipsesMarkGaps(s: seq<PageItem>)
  {
    forall i :: 0 <= i < |s| && s[i].Ellipsis? ==>
      0 < i < |s| - 1 && s[i - 1].Page? && s[i + 1].Page? && s[i - 1].n + 1 < s[i + 1].n
  }

  /** Two neighbouring page buttons are consecutive pages: no page is skipped without an ellipsis. */
  ghost predicate NoSilentGaps(s: seq<PageItem>)
  {
    forall i :: 0 <= i < |s| - 1 && s[i].Page? && s[i + 1].Page? ==> s[i + 1].n == s[i].n + 1
  }

  /** The shape of a correct page control for `total` pages. */
  ghost predicate WellFormedWindow(s: seq<PageItem>, total: int)
  {
    && s != [] && s[0] == Page(1)
    && (total > 1 ==> s[|s| - 1] == Page(total))
    && Within(s, 1, total)
    && Increasing(s)
    && EllipsesMarkGaps(s)
    && NoSilentGaps(s)
  }

  lemma {:induction false} CollapseNoAdjacentEllipses(s: seq<PageItem>)
    ensures NoAdjacentEllipses(Collapse(s))
  {
    if s != [] {
      CollapseNoAdjacentEllipses(s[..|s| - 1]);
    }
  }

  lemma {:induction false} NumbersSnoc(s: seq<PageItem>, x: PageItem)
    ensures Numbers(s + [x]) == Numbers(s) + (if x.Page? then [x.n] else [])
  {
    assert (s + [x])[..|s + [x]| - 1] == s;
  }

  /** The dedup pass keeps every page number, in order. */
  lemma {:induction false} CollapseKeepsNumbers(s: seq<PageItem>)
    ensures Numbers(Collapse(s)) == Numbers(s)
  {
    if s != [] {
      var p := s[..|s| - 1];
      CollapseKeepsNumbers(p);
      var r := Collapse(p);
      if !(s[|s| - 1].Ellipsis? && r != [] && r[|r| - 1].Ellipsis?) {
        NumbersSnoc(r, s[|s| - 1]);
      }
    }
  }

  /** A list without two ellipses in a row passes through the dedup pass unchanged. */
  lemma {:induction false} CollapseOfClean(s: seq<PageItem>)
    requires NoAdjacentEllipses(s)
    ensures Collapse(s) == s
  {
    if s != [] {
      var p := s[..|s| - 1];
      assert NoAdjacentEllipses(p) by {
        forall i | 0 <= i < |p| - 1 ensures !(p[i].Ellipsis? && p[i + 1].Ellipsis?) {
          assert p[i] == s[i] && p[i + 1] == s[i + 1];
        }
      }
      CollapseOfClean(p);
      if |s| >= 2 {
        assert !(s[|s| - 2].Ellipsis? && s[|s| - 1].Ellipsis?);
      }
      assert p + [s[|s| - 1]] == s;
    }
  }

  lemma {:induction false} RangeItemsAreConsecutive(lo: int, hi: int, total: int)
    requires 2 <= lo && hi <= total
    ensures |RangeItems(lo, hi, total)| == Max(0, hi - lo)
    ensures forall k :: 0 <= k < |RangeItems(lo, hi, total)| ==> RangeItems(lo, hi, total)[k] == Page(lo + k)
    decreases hi - lo
  {
    if hi > lo {
      RangeItemsAreConsecutive(lo, hi - 1, total);
    }
  }

  /** The two adjustments keep the window inside [2, total - 1] and never leave it empty next to an ellipsis. */
  lemma WindowBounds(current: int, total: int)
    requires total >= 1
    ensures var start, end := RangeStart(current, total), RangeEnd(current, total);
      && 2 <= start && end <= total - 1
      && (start > 2 ==> start <= end)
      && (end < total - 1 ==> start <= end)
      && (2 <= current <= total - 1 ==> start <= current <= end)
  {
  }

  /** First page of the consecutive run in the middle of the control. */
  function CoreFirst(current: int, total: int): int
  {
    if RangeStart(current, total) > 2 then RangeStart(current, total) else 1
  }

  /** Last page of the consecutive run in the middle of the control. */
  function CoreLast(current: int, total: int): int
  {
    if RangeEnd(current, total) < total - 1 then RangeEnd(current, total) else total
  }

  lemma CoreBounds(current: int, total: int)
    requires total >= 1
    ensures var a, b := CoreFirst(current, total), CoreLast(current, total);
      var e1, e2 := RangeStart(current, total) > 2, RangeEnd(current, total) < total - 1;
      && 1 <= a <= b <= total
      && (e1 ==> a > 2)
      && (e2 ==> b + 1 < total)
      && (b - a + 1) + (if e1 then 2 else 0) + (if e2 then 2 else 0) <= 7
      && (1 <= current <= total ==> a <= current <= b)
  {
  }

  /** Increasing numbers, ellipses only at gaps, no gap without an ellipsis. */
  ghost predicate Shaped(s: seq<PageItem>)
  {
    Increasing(s) && EllipsesMarkGaps(s) && NoSilentGaps(s)
  }

  /** A run of consecutive page buttons starting at page `a`. */
  ghost predicate ConsecutiveFrom(s: seq<PageItem>, a: int)
  {
    forall k :: 0 <= k < |s| ==> s[k] == Page(a + k)
  }

  lemma ConsecutiveIsShaped(s: seq<PageItem>, a: int)
    requires ConsecutiveFrom(s, a)
    ensures Shaped(s)
  {
  }

  lemma PrependGapIncreasing(s: seq<PageItem>)
    requires Increasing(s) && s != [] && s[0].Page? && s[0].n > 1
    ensures Increasing([Page(1), Ellipsis] + s)
  {
    var t := [Page(1), Ellipsis] + s;
    forall i, j | 0 <= i < j < |t| && t[i].Page? && t[j].Page? ensures t[i].n < t[j].n {
      if i >= 2 {
        assert t[i] == s[i - 2] && t[j] == s[j - 2];
      } else if j > 2 {
        assert t[j] == s[j - 2] && s[0].n < s[j - 2].n;
      }
    }
  }

  lemma PrependGapMarks(s: seq<PageItem>)
    requires EllipsesMarkGaps(s) && s != [] && s[0].Page? && s[0].n > 2
    ensures EllipsesMarkGaps([Page(1), Ellipsis] + s)
  {
    var t := [Page(1), Ellipsis] + s;
    forall i | 0 <= i < |t| && t[i].Ellipsis?
      ensures 0 < i < |t| - 1 && t[i - 1].Page? && t[i + 1].Page? && t[i - 1].n + 1 < t[i + 1].n
    {
      if i > 2 {
        assert t[i - 1] == s[i - 3] && t[i] == s[i - 2] && t[i + 1] == s[i - 1];
      }
    }
  }

  lemma PrependGapNoSilent(s: seq<PageItem>)
    requires NoSilentGaps(s)
    ensures NoSilentGaps([Page(1), Ellipsis] + s)
  {
    var t := [Page(1), Ellipsis] + s;
    forall i | 0 <= i < |t| - 1 && t[i].Page? && t[i + 1].Page? ensures t[i + 1].n == t[i].n + 1 {
      assert t[i] == s[i - 2] && t[i + 1] == s[i - 1];
    }
  }

  lemma {:induction false} PrependGap(s: seq<PageItem>)
    requires Shaped(s) && s != [] && s[0].Page? && s[0].n > 2
    ensures Shaped([Page(1), Ellipsis] + s)
  {
    PrependGapIncreasing(s);
    PrependGapMarks(s);
    PrependGapNoSilent(s);
  }

  lemma AppendGapIncreasing(s: seq<PageItem>, total: int)
    requires Increasing(s) && s != [] && s[|s| - 1].Page? && s[|s| - 1].n < total
    ensures Increasing(s + [Ellipsis, Page(total)])
  {
    var t := s + [Ellipsis, Page(total)];
    var last := |s| - 1;
    forall i, j | 0 <= i < j < |t| && t[i].Page? && t[j].Page? ensures t[i].n < t[j].n {
      if j <= last {
        assert t[i] == s[i] && t[j] == s[j];
      } else if i < last {
        assert t[i] == s[i] && s[i].n < s[last].n;
      }
    }
  }

  lemma AppendGapMarks(s: seq<PageItem>, total: int)
    requires EllipsesMarkGaps(s) && s != [] && s[|s| - 1].Page? && s[|s| - 1].n + 1 < total
    ensures EllipsesMarkGaps(s + [Ellipsis, Page(total)])
  {
    var t := s + [Ellipsis, Page(total)];
    var last := |s| - 1;
    forall i | 0 <= i < |t| && t[i].Ellipsis?
      ensures 0 < i < |t| - 1 && t[i - 1].Page? && t[i + 1].Page? && t[i - 1].n + 1 < t[i + 1].n
    {
      if i < last {
        assert t[i - 1] == s[i - 1] && t[i] == s[i] && t[i + 1] == s[i + 1];
      }
    }
  }

  lemma AppendGapNoSilent(s: seq<PageItem>, total: int)
    requires NoSilentGaps(s)
    ensures NoSilentGaps(s + [Ellipsis, Page(total)])
  {
    var t := s + [Ellipsis, Page(total)];
    forall i | 0 <= i < |t| - 1 && t[i].Page? && t[i + 1].Page? ensures t[i + 1].n == t[i].n + 1 {
      assert t[i] == s[i] && t[i + 1] == s[i + 1];
    }
  }

  lemma {:induction false} AppendGap(s: seq<PageItem>, total: int)
    requires Shaped(s) && s != [] && s[|s| - 1].Page? && s[|s| - 1].n + 1 < total
    ensures Shaped(s + [Ellipsis, Page(total)])
  {
    AppendGapIncreasing(s, total);
    AppendGapMarks(s, total);
    AppendGapNoSilent(s, total);
  }

  lemma ShapedWithin(s: seq<PageItem>)
    requires Increasing(s) && s != [] && s[0].Page? && s[|s| - 1].Page?
    ensures Within(s, s[0].n, s[|s| - 1].n)
  {
    forall i | 0 <= i < |s| && s[i].Page? ensures s[0].n <= s[i].n <= s[|s| - 1].n {
      if 0 < i { assert s[0].n < s[i].n; }
      if i < |s| - 1 { assert s[i].n < s[|s| - 1].n; }
    }
  }

  /** The window's pages, with page 1 and page `total` added where no ellipsis separates them, run consecutively. */
  lemma CoreRun(current: int, total: int) returns (core: seq<PageItem>)
    requires total >= 1
    ensures var start, end := RangeStart(current, total), RangeEnd(current, total);
      core == (if start > 2 then [] else [Page(1)]) + RangeItems(start, end + 1, total)
        + (if end < total - 1 || total == 1 then [] else [Page(total)])
    ensures |core| == CoreLast(current, total) - CoreFirst(current, total) + 1
    ensures ConsecutiveFrom(core, CoreFirst(current, total))
  {
    var start, end := RangeStart(current, total), RangeEnd(current, total);
    WindowBounds(current, total);
    var mid := RangeItems(start, end + 1, total);
    RangeItemsAreConsecutive(start, end + 1, total);
    var head: seq<PageItem> := if start > 2 then [] else [Page(1)];
    var tail: seq<PageItem> := if end < total - 1 || total == 1 then [] else [Page(total)];
    core := head + mid + tail;
    var a := CoreFirst(current, total);
    assert ConsecutiveFrom(head + mid, a);
  }

  /** Regrouping the first-pass list: each optional ellipsis joins its end page, the other end pages join the run. */
  lemma Regroup(mid: seq<PageItem>, first: PageItem, last: PageItem, gapLeft: bool, gapRight: bool, hasLast: bool)
    requires gapRight ==> hasLast
    ensures [first] + (if gapLeft then [Ellipsis] else []) + mid
        + (if gapRight then [Ellipsis] else []) + (if hasLast then [last] else [])
      == (if gapLeft then [first, Ellipsis] else [])
        + ((if gapLeft then [] else [first]) + mid + (if gapRight || !hasLast then [] else [last]))
        + (if gapRight then [Ellipsis, last] else [])
  {
    if gapLeft {
      assert [first] + [Ellipsis] == [first, Ellipsis];
    }
    if gapRight {
      assert [Ellipsis] + [last] == [Ellipsis, last];
    }
  }

  /** The first-pass list is an optional [1, ...] head, a run of consecutive pages and an optional [..., total] tail. */
  lemma {:induction false} RawPagesSplit(current: int, total: int)
    returns (left: seq<PageItem>, core: seq<PageItem>, right: seq<PageItem>)
    requires total >= 1
    ensures RawPages(current, total) == left + core + right
    ensures |core| == CoreLast(current, total) - CoreFirst(current, total) + 1
    ensures ConsecutiveFrom(core, CoreFirst(current, total))
    ensures left == if RangeStart(current, total) > 2 then [Page(1), Ellipsis] else []
    ensures right == if RangeEnd(current, total) < total - 1 then [Ellipsis, Page(total)] else []
  {
    var start, end := RangeStart(current, total), RangeEnd(current, total);
    WindowBounds(current, total);
    core := CoreRun(current, total);
    left := if start > 2 then [Page(1), Ellipsis] else [];
    right := if end < total - 1 then [Ellipsis, Page(total)] else [];
    Regroup(RangeItems(start, end + 1, total), Page(1), Page(total), start > 2, end < total - 1, total > 1);
  }

  /** An optional [1, ...] head, a consecutive run from `a`, an optional [..., total] tail form a well-shaped list. */
  lemma ShapedParts(left: seq<PageItem>, core: seq<PageItem>, right: seq<PageItem>, a: int, total: int)
    requires core != [] && ConsecutiveFrom(core, a)
    requires left == [] ==> a == 1
    requires left != [] ==> left == [Page(1), Ellipsis] && a > 2
    requires right == [] ==> a + |core| - 1 == total
    requires right != [] ==> right == [Ellipsis, Page(total)] && a + |core| < total
    ensures Shaped(left + core + right)
    ensures (left + core + right)[0] == Page(1)
    ensures (left + core + right)[|left + core + right| - 1] == Page(total)
  {
    ConsecutiveIsShaped(core, a);
    assert core[0] == Page(a) && core[|core| - 1] == Page(a + |core| - 1);
    var t: seq<PageItem>;
    if left != [] {
      PrependGap(core);
      t := [Page(1), Ellipsis] + core;
    } else {
      t := core;
    }
    assert t == left + core;
    assert Shaped(t) && t[0] == Page(1) && t[|t| - 1] == Page(a + |core| - 1);
    if right != [] {
      AppendGap(t, total);
    } else {
      assert left + core + right == t;
    }
  }

  lemma RawPagesShaped(current: int, total: int)
    requires total >= 1
    ensures Shaped(RawPages(current, total))
    ensures RawPages(current, total)[0] == Page(1)
    ensures RawPages(current, total)[|RawPages(current, total)| - 1] == Page(total)
    ensures |RawPages(current, total)| <= 7
  {
    var left, core, right := RawPagesSplit(current, total);
    CoreBounds(current, total);
    ShapedParts(left, core, right, CoreFirst(current, total), total);
  }

  lemma RawPagesShowCurrent(current: int, total: int)
    requires 1 <= current <= total
    ensures Page(current) in RawPages(current, total)
  {
    var left, core, right := RawPagesSplit(current, total);
    var a := CoreFirst(current, total);
    CoreBounds(current, total);
    assert RawPages(current, total)[|left| + (current - a)] == Page(current);
  }

  lemma GapsMarkedNoAdjacent(s: seq<PageItem>)
    requires EllipsesMarkGaps(s)
    ensures NoAdjacentEllipses(s)
  {
  }

  /** The list built by the first pass already has the shape of a correct page control. */
  lemma RawPagesWellFormed(current: int, total: int)
    requires total >= 1
    ensures WellFormedWindow(RawPages(current, total), total)
    ensures NoAdjacentEllipses(RawPages(current, total))
    ensures |RawPages(current, total)| <= 7
    ensures 1 <= current <= total ==> Page(current) in RawPages(current, total)
  {
    RawPagesShaped(current, total);
    ShapedWithin(RawPages(current, total));
    GapsMarkedNoAdjacent(RawPages(current, total));
    if 1 <= current <= total {
      RawPagesShowCurrent(current, total);
    }
  }

  /** The page control, whatever the inputs: the dedup pass leaves the first-pass list as it is. */
  lemma PageWindowIsRawPages(current: int, total: int)
    requires total >= 1
    ensures PageWindow(current, total) == RawPages(current, total)
  {
    RawPagesWellFormed(current, total);
    CollapseOfClean(RawPages(current, total));
  }

  /** The first pass: page 1, an optional ellipsis, the window, an optional ellipsis, the last page. */
  method BuildPages(current: int, total: int) returns (pages: seq<PageItem>)
    ensures pages == RawPages(current, total)
  {
    pages := [Page(1)];
    var start := Max(2, current - 1);
    var end := Min(total - 1, current + 1);
    if current <= 3 {
      end := Min(4, total - 1);
    }
    if current >= total - 2 {
      start := Max(total - 3, 2);
    }
    assert start == RangeStart(current, total) && end == RangeEnd(current, total);
    if start > 2 {
      pages := pages + [Ellipsis];
    }
    ghost var prefix := pages;
    var i := start;
    while i <= end
      invariant start <= i <= Max(start, end + 1)
      invariant pages == prefix + RangeItems(start, i, total)
    {
      if i != 1 && i != total {
        pages := pages + [Page(i)];
      }
      i := i + 1;
    }
    ghost var body := pages;
    assert body == prefix + RangeItems(start, end + 1, total);
    if end < total - 1 {
      pages := pages + [Ellipsis];
    }
    ghost var gap := pages;
    if total > 1 {
      pages := pages + [Page(total)];
    }
    assert gap == body + (if end < total - 1 then [Ellipsis] else []);
    assert pages == gap + (if total > 1 then [Page(total)] else []);
  }

  /** The second pass, walking the list once with a `lastWasEllipsis` flag. */
  method CollapseEllipses(pages: seq<PageItem>) returns (finalPages: seq<PageItem>)
    ensures finalPages == Collapse(pages)
    ensures Numbers(finalPages) == Numbers(pages)
    ensures NoAdjacentEllipses(finalPages)
  {
    finalPages := [];
    var lastWasEllipsis := false;
    for k := 0 to |pages|
      invariant finalPages == Collapse(pages[..k])
      invariant lastWasEllipsis <==> finalPages != [] && finalPages[|finalPages| - 1].Ellipsis?
    {
      var page := pages[k];
      assert pages[..k + 1][..k] == pages[..k];
      if page.Ellipsis? {
        if !lastWasEllipsis {
          finalPages := finalPages + [page];
          lastWasEllipsis := true;
        }
      } else {
        finalPages := finalPages + [page];
        lastWasEllipsis := false;
      }
    }
    assert pages[..|pages|] == pages;
    CollapseKeepsNumbers(pages);
    CollapseNoAdjacentEllipses(pages);
  }

  /**
   * The page-number control for page `current` of `total`: page 1 first, page `total` last,
   * numbers strictly increasing inside [1, total], an ellipsis exactly where pages are
   * skipped, the current page always shown, at most seven entries.
   */
  method PageNumbers(current: int, total: int) returns (finalPages: seq<PageItem>)
    ensures finalPages == PageWindow(current, total)
    ensures total >= 1 ==> WellFormedWindow(finalPages, total)
    ensures total >= 1 ==> |finalPages| <= 7
    ensures 1 <= current <= total ==> Page(current) in finalPages
  {
    var pages := BuildPages(current, total);
    finalPages := CollapseEllipses(pages);
    if total >= 1 {
      RawPagesWellFormed(current, total);
      PageWindowIsRawPages(current, total);
    }
  }

  // ---------------------------------------------------------------------------
  // Stock badge

  datatype StockStatus = StockStatus(labelText: string, className: string)

  /** The badge on a product card: out of stock at exactly 0, low below 10, in stock otherwise. */
  function GetStockStatus(stock: int): (r: StockStatus)
    ensures r.labelText == "Out of Stock" <==> stock == 0
    ensures r.labelText == "Low Stock" <==> stock != 0 && stock < 10
    ensures r.labelText == "In Stock" <==> stock >= 10
    ensures r.labelText == "Out of Stock" ==> r.className == "bg-red-100 text-red-800"
    ensures r.labelText == "Low Stock" ==> r.className == "bg-yellow-100 text-yellow-800"
    ensures r.labelText == "In Stock" ==> r.className == "bg-green-100 text-green-800"
  {
    if stock == 0 then StockStatus("Out of Stock", "bg-red-100 text-red-800")
    else if stock < 10 then StockStatus("Low Stock", "bg-yellow-100 text-yellow-800")
    else StockStatus("In Stock", "bg-green-100 text-green-800")
  }

  // ---------------------------------------------------------------------------
  // Previous / Next buttons

  /** Previous: one page back, never below page 1. */
  function PreviousPage(prev: int): (p: int)
    ensures p >= 1
    ensures p <= prev || prev < 1
    ensures prev > 1 ==> p == prev - 1
  {
    Max(prev - 1, 1)
  }

  /** Next: one page forward, never past the last page. */
  function NextPage(prev: int, lastPage: int): (p: int)
    ensures p <= lastPage
    ensures p <= prev + 1
    ensures prev < lastPage ==> p == prev + 1
  {
    Min(prev + 1, lastPage)
  }

  /** From any page in [1, lastPage] both buttons stay in [1, lastPage], and inside the range they undo each other. */
  lemma PreviousNextStayInRange(p: int, lastPage: int)
    requires 1 <= p <= lastPage
    ensures 1 <= PreviousPage(p) <= lastPage && 1 <= NextPage(p, lastPage) <= lastPage
    ensures p < lastPage ==> PreviousPage(NextPage(p, lastPage)) == p
    ensures 1 < p ==> NextPage(PreviousPage(p), lastPage) == p
    ensures p == 1 <==> PreviousPage(p) == p
    ensures p == lastPage <==> NextPage(p, lastPage) == p
  {
  }

  // ---------------------------------------------------------------------------
  // List state

  /** What a product card shows. */
  datatype ProductSummary = ProductSummary(
    id: int, name: string, price: real, category: string, stock: int,
    sku: string, description: Option<string>, image: Option<string>)

  /** The `pagination` object of the list envelope. */
  datatype Pagination = Pagination(
    total: int, perPage: int, currentPage: int, lastPage: int, from: Option<int>, to: Option<int>)

  /** The body of a successful `GET /products?page=N`: `data` and `pagination`, each possibly missing. */
  datatype ListBody = ListBody(data: Option<seq<ProductSummary>>, pagination: Option<Pagination>)

  /** The state hooks of the product list. */
  class ProductListView {
    var products: seq<ProductSummary>
    var loading: bool
    var error: Option<string>
    var pagination: Option<Pagination>
    var currentPage: int

    constructor ()
      ensures products == [] && loading && error.None? && pagination.None? && currentPage == 1
    {
      products := [];
      loading := true;
      error := None;
      pagination := None;
      currentPage := 1;
    }

    /**
     * Applies the outcome of fetching page `currentPage`: on success the products and the
     * pagination are replaced (an absent `data` becomes the empty list, an absent
     * `pagination` null) and the error cleared; on failure the error holds the server message
     * or 'Failed to fetch products' and the previous products stay. Loading ends either way.
     * The request goes through the shared client, so a rejection also passes the response
     * interceptor, which signs the browser out on a 401.
     */
    method FetchProducts(storage: Api.AuthStorage, outcome: Result<ListBody, Js.ApiError>)
      modifies this, storage
      ensures !loading && currentPage == old(currentPage)
      ensures outcome.Ok? ==> storage.items == old(storage.items)
      ensures outcome.Err? ==> storage.items == Api.AfterRejection(old(storage.items), outcome.error)
      ensures outcome.Ok? ==>
                && error.None?
                && products == (if outcome.value.data.Some? then outcome.value.data.value else [])
                && pagination == outcome.value.pagination
      ensures outcome.Err? ==>
                && error == Some(Js.MessageOr(outcome.error, "Failed to fetch products"))
                && products == old(products) && pagination == old(pagination)
    {
      loading := true;
      error := None;
      match outcome {
        case Ok(body) =>
          products := if body.data.Some? then body.data.value else [];
          pagination := body.pagination;
        case Err(err) =>
          var rejected := storage.RejectResponse(err);
          error := Some(Js.MessageOr(rejected, "Failed to fetch products"));
      }
      loading := false;
    }

    /** The Previous button. */
    method PreviousClick()
      modifies this`currentPage
      ensures currentPage == PreviousPage(old(currentPage))
    {
      currentPage := PreviousPage(currentPage);
    }

    /** The Next button, shown only when a pagination object is present. */
    method NextClick()
      requires pagination.Some?
      modifies this`currentPage
      ensures currentPage == NextPage(old(currentPage), pagination.value.lastPage)
    {
      currentPage := NextPage(currentPage, pagination.value.lastPage);
    }

    /** A page-number button. */
    method PageClick(page: int)
      modifies this`currentPage
      ensures currentPage == page
    {
      currentPage := page;
    }
  }
}
