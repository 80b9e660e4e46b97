/**
 * The page strip of the shared pagination control (src/components/ui/Pagination.tsx):
 * which buttons it shows for a current page and a page count, what each
 * button is worth, which are disabled or active, and when a click reaches
 * the page-change callback. Labels, icons and styling are not modelled.
 */
module Pagination {
  import opened Wrappers
  import opened Text

  datatype Kind = First | Previous | PageNumber | Ellipsis | Next | Last

  /** One button: its kind, the page it leads to (`null` for an ellipsis), and its flags. */
  datatype Item = Item(kind: Kind, value: Option<int>, disabled: bool, active: bool)

  function Max(a: int, b: int): int { if a >= b then a else b }
  function Min(a: int, b: int): int { if a <= b then a else b }

  /** A page-number button; it is active when it is the current page. */
  function PageItem(i: int, current: int): Item {
    Item(PageNumber, Some(i), false, i == current)
  }

  /** A page-number button the code marks inactive outright. */
  function FixedPage(i: int): Item {
    Item(PageNumber, Some(i), false, false)
  }

  const EllipsisItem: Item := Item(Ellipsis, None, true, false)

  /** Page buttons `lo` to `hi` in order (none when `hi < lo`). */
  function Pages(lo: int, hi: int, current: int): (r: seq<Item>)
    ensures |r| == Max(0, hi - lo + 1)
    ensures forall k :: 0 <= k < |r| ==> r[k] == PageItem(lo + k, current)
  {
    seq(Max(0, hi - lo + 1), k => PageItem(lo + k, current))
  }

  lemma PagesSnoc(lo: int, hi: int, current: int)
    requires lo <= hi + 1
    ensures Pages(lo, hi + 1, current) == Pages(lo, hi, current) + [PageItem(hi + 1, current)]
  {
  }

  /**
   * The numbered part of the strip, by range: all pages when there are seven
   * or fewer (or ellipses are off); otherwise the first four, the last four,
   * or the current page with its siblings, joined to page 1 and the last
   * page by ellipses.
   */
  function Body(current: int, total: int, siblings: int, showEllipsis: bool): seq<Item> {
    if showEllipsis && total > 7 then
      if current <= 3 then Pages(1, 4, current) + [EllipsisItem, FixedPage(total)]
      else if current >= total - 2 then [FixedPage(1), EllipsisItem] + Pages(total - 3, total, current)
      else [FixedPage(1), EllipsisItem] + Pages(Max(2, current - siblings), Min(total - 1, current + siblings), current)
           + [EllipsisItem, FixedPage(total)]
    else Pages(1, total, current)
  }

  function FirstItem(current: int): Item { Item(First, Some(1), current == 1, false) }
  function PreviousItem(current: int): Item { Item(Previous, Some(Max(1, current - 1)), current == 1, false) }
  function NextItem(current: int, total: int): Item { Item(Next, Some(Min(total, current + 1)), current == total, false) }
  function LastItem(current: int, total: int): Item { Item(Last, Some(total), current == total, false) }

  /** The whole strip: nothing for one page or fewer; otherwise first?, previous, the body, next, last?. */
  function Strip(current: int, total: int, siblings: int, showFirstLast: bool, showEllipsis: bool): seq<Item> {
    if total <= 1 then []
    else
      (if showFirstLast then [FirstItem(current)] else [])
      + [PreviousItem(current)]
      + Body(current, total, siblings, showEllipsis)
      + [NextItem(current, total)]
      + (if showFirstLast then [LastItem(current, total)] else [])
  }

  /** `usePaginationLogic`: the buttons pushed one by one, as the hook does. */
  method PaginationItems(current: int, total: int, siblings: int, showFirstLast: bool, showEllipsis: bool)
    returns (items: seq<Item>)
    ensures items == Strip(current, total, siblings, showFirstLast, showEllipsis)
  {
    items := [];
    if total <= 1 {
      return;
    }
    if showFirstLast {
      items := items + [Item(First, Some(1), current == 1, false)];
    }
    items := items + [Item(Previous, Some(Max(1, current - 1)), current == 1, false)];
    var numbered := NumberedItems(current, total, siblings, showEllipsis);
    items := items + numbered;
    items := items + [Item(Next, Some(Min(total, current + 1)), current == total, false)];
    if showFirstLast {
      items := items + [Item(Last, Some(total), current == total, false)];
    }
  }

  /** The page-number part of `usePaginationLogic`, branch by branch. */
  method NumberedItems(current: int, total: int, siblings: int, showEllipsis: bool) returns (items: seq<Item>)
    requires total > 1
    ensures items == Body(current, total, siblings, showEllipsis)
  {
    if showEllipsis && total > 7 {
      if current <= 3 {
        items := FrontItems(current, total);
      } else if current >= total - 2 {
        items := BackItems(current, total);
      } else {
        items := MiddleItems(current, total, siblings);
      }
    } else {
      items := [];
      var i := 1;
      while i <= total
        invariant 1 <= i <= total + 1
        invariant items == Pages(1, i - 1, current)
      {
        PagesSnoc(1, i - 1, current);
        items := items + [Item(PageNumber, Some(i), false, i == current)];
        i := i + 1;
      }
    }
  }

  method FrontItems(current: int, total: int) returns (items: seq<Item>)
    requires total > 7
    ensures items == Pages(1, 4, current) + [EllipsisItem, FixedPage(total)]
  {
    items := [];
    var i := 1;
    while i <= Min(4, total)
      invariant 1 <= i <= 5
      invariant items == Pages(1, i - 1, current)
    {
      PagesSnoc(1, i - 1, current);
      items := items + [Item(PageNumber, Some(i), false, i == current)];
      i := i + 1;
    }
    if total > 4 {
      items := items + [Item(Ellipsis, None, true, false)];
      items := items + [Item(PageNumber, Some(total), false, false)];
    }
  }

  method BackItems(current: int, total: int) returns (items: seq<Item>)
    requires total > 7
    ensures items == [FixedPage(1), EllipsisItem] + Pages(total - 3, total, current)
  {
    items := [Item(PageNumber, Some(1), false, false)];
    items := items + [Item(Ellipsis, None, true, false)];
    ghost var head := items;
    var i := Max(1, total - 3);
    while i <= total
      invariant total - 3 <= i <= total + 1
      invariant items == head + Pages(total - 3, i - 1, current)
    {
      PagesSnoc(total - 3, i - 1, current);
      items := items + [Item(PageNumber, Some(i), false, i == current)];
      i := i + 1;
    }
  }

  method MiddleItems(current: int, total: int, siblings: int) returns (items: seq<Item>)
    ensures items == [FixedPage(1), EllipsisItem]
      + Pages(Max(2, current - siblings), Min(total - 1, current + siblings), current)
      + [EllipsisItem, FixedPage(total)]
  {
    items := [Item(PageNumber, Some(1), false, false)];
    items := items + [Item(Ellipsis, None, true, false)];
    ghost var head := items;
    ghost var lo := Max(2, current - siblings);
    var i := current - siblings;
    while i <= current + siblings
      invariant siblings >= 0 ==> i <= current + siblings + 1
      invariant siblings < 0 ==> i == current - siblings
      invariant items == head + Pages(lo, Min(total - 1, i - 1), current)
    {
      if i > 1 && i < total {
        PagesSnoc(lo, i - 1, current);
        items := items + [Item(PageNumber, Some(i), false, i == current)];
      }
      i := i + 1;
    }
    assert Pages(lo, Min(total - 1, i - 1), current) == Pages(lo, Min(total - 1, current + siblings), current);
    items := items + [Item(Ellipsis, None, true, false)];
    items := items + [Item(PageNumber, Some(total), false, false)];
  }

  predicate IsPage(it: Item) {
    it.kind == PageNumber && it.value.Some?
  }

  /**
   * The layout rule of the numbered part: only pages and ellipses, no two
   * ellipses side by side, neighbouring pages consecutive, and an ellipsis
   * only where at least one page is left out.
   */
  predicate WellSpaced(body: seq<Item>) {
    (forall k :: 0 <= k < |body| ==> IsPage(body[k]) || body[k] == EllipsisItem)
    && (forall k :: 0 <= k < |body| - 1 ==> IsPage(body[k]) || IsPage(body[k + 1]))
    && (forall k :: 0 <= k < |body| - 1 && IsPage(body[k]) && IsPage(body[k + 1]) ==>
          body[k + 1].value.value == body[k].value.value + 1)
    && (forall k :: 0 <= k < |body| - 2 && IsPage(body[k]) && !IsPage(body[k + 1]) && IsPage(body[k + 2]) ==>
          body[k + 2].value.value > body[k].value.value + 1)
  }

  /** A run of page buttons is well spaced. */
  lemma PagesWellSpaced(lo: int, hi: int, current: int)
    ensures WellSpaced(Pages(lo, hi, current))
  {
  }

  /**
   * For more than one page the numbered part begins at page 1, ends at the
   * last page and is well spaced — with at most one sibling on each side,
   * as the default of one gives; a larger count can put an ellipsis between
   * pages 1 and 2.
   */
  lemma BodyLayout(current: int, total: int, siblings: int, showEllipsis: bool)
    requires total > 1
    requires 0 <= siblings <= 1
    ensures var b := Body(current, total, siblings, showEllipsis);
      |b| >= 2 && b[0] == PageItem(1, current) && b[|b| - 1] == PageItem(total, current) && WellSpaced(b)
  {
    if showEllipsis && total > 7 {
      if current <= 3 {
        FrontLayout(current, total);
      } else if current >= total - 2 {
        BackLayout(current, total);
      } else {
        MiddleLayout(current, total, siblings);
      }
    } else {
      PagesWellSpaced(1, total, current);
    }
  }

  lemma FrontLayout(current: int, total: int)
    requires total > 7 && current <= 3
    ensures var b := Pages(1, 4, current) + [EllipsisItem, FixedPage(total)];
      |b| >= 2 && b[0] == PageItem(1, current) && b[|b| - 1] == PageItem(total, current) && WellSpaced(b)
  {
    var b := Pages(1, 4, current) + [EllipsisItem, FixedPage(total)];
    assert b == [PageItem(1, current), PageItem(2, current), PageItem(3, current), PageItem(4, current), EllipsisItem, FixedPage(total)];
  }

  lemma BackLayout(current: int, total: int)
    requires total > 7 && current >= total - 2
    ensures var b := [FixedPage(1), EllipsisItem] + Pages(total - 3, total, current);
      |b| >= 2 && b[0] == PageItem(1, current) && b[|b| - 1] == PageItem(total, current) && WellSpaced(b)
  {
    var b := [FixedPage(1), EllipsisItem] + Pages(total - 3, total, current);
    assert b == [FixedPage(1), EllipsisItem, PageItem(total - 3, current), PageItem(total - 2, current),
                 PageItem(total - 1, current), PageItem(total, current)];
  }

  lemma MiddleLayout(current: int, total: int, siblings: int)
    requires total > 7 && 3 < current < total - 2 && 0 <= siblings <= 1
    ensures var b := [FixedPage(1), EllipsisItem]
      + Pages(Max(2, current - siblings), Min(total - 1, current + siblings), current)
      + [EllipsisItem, FixedPage(total)];
      |b| >= 2 && b[0] == PageItem(1, current) && b[|b| - 1] == PageItem(total, current) && WellSpaced(b)
  {
    var b := [FixedPage(1), EllipsisItem]
      + Pages(Max(2, current - siblings), Min(total - 1, current + siblings), current)
      + [EllipsisItem, FixedPage(total)];
    if siblings == 0 {
      assert b == [FixedPage(1), EllipsisItem, PageItem(current, current), EllipsisItem, FixedPage(total)];
      MiddleWithoutSiblings(current, total);
    } else {
      assert b == [FixedPage(1), EllipsisItem, PageItem(current - 1, current), PageItem(current, current),
                   PageItem(current + 1, current), EllipsisItem, FixedPage(total)];
      MiddleWithSiblings(current, total);
    }
  }

  lemma MiddleWithoutSiblings(current: int, total: int)
    requires total > 7 && 3 < current < total - 2
    ensures WellSpaced([FixedPage(1), EllipsisItem, PageItem(current, current), EllipsisItem, FixedPage(total)])
  {
  }

  lemma MiddleWithSiblings(current: int, total: int)
    requires total > 7 && 3 < current < total - 2
    ensures WellSpaced([FixedPage(1), EllipsisItem, PageItem(current - 1, current), PageItem(current, current),
                        PageItem(current + 1, current), EllipsisItem, FixedPage(total)])
  {
  }

  /** The buttons marked active are exactly the current page's, and there is one when it lies in range. */
  lemma ActiveIsCurrent(current: int, total: int, siblings: int, showFirstLast: bool, showEllipsis: bool)
    requires siblings >= 0
    ensures var s := Strip(current, total, siblings, showFirstLast, showEllipsis);
      (forall k :: 0 <= k < |s| && s[k].active ==> s[k] == PageItem(current, current))
      && (total > 1 && 1 <= current <= total ==> exists k :: 0 <= k < |s| && s[k].active)
  {
    StripSound(current, total, siblings, showFirstLast, showEllipsis);
    if total > 1 && 1 <= current <= total {
      var s := Strip(current, total, siblings, showFirstLast, showEllipsis);
      var j := CurrentShown(current, total, siblings, showEllipsis);
      var pre := StripBodyAt(current, total, siblings, showFirstLast, showEllipsis);
      assert s[pre + j].active;
    }
  }

  /**
   * What every button of the strip satisfies: only the current page's
   * button is active; for a current page in range, every value lies in
   * range and a disabled button other than an ellipsis points at the
   * current page.
   */
  predicate Sound(x: Item, current: int, total: int) {
    && (x.active ==> x == PageItem(current, current))
    && (1 <= current <= total ==>
          && (x.value.Some? ==> 1 <= x.value.value <= total)
          && (x.disabled && x.kind != Ellipsis ==> x.value == Some(current)))
  }

  predicate AllSound(s: seq<Item>, current: int, total: int) {
    forall k :: 0 <= k < |s| ==> Sound(s[k], current, total)
  }

  lemma AllSoundConcat(a: seq<Item>, b: seq<Item>, current: int, total: int)
    requires AllSound(a, current, total) && AllSound(b, current, total)
    ensures AllSound(a + b, current, total)
  {
    forall k | 0 <= k < |a + b|
      ensures Sound((a + b)[k], current, total)
    {
      if k < |a| {
        assert (a + b)[k] == a[k];
      } else {
        assert (a + b)[k] == b[k - |a|];
      }
    }
  }

  lemma PagesSound(lo: int, hi: int, current: int, total: int)
    requires 1 <= lo && hi <= total
    ensures AllSound(Pages(lo, hi, current), current, total)
  {
  }

  lemma BodySound(current: int, total: int, siblings: int, showEllipsis: bool)
    requires total > 1
    ensures AllSound(Body(current, total, siblings, showEllipsis), current, total)
  {
    var ends := [EllipsisItem, FixedPage(total)];
    var starts := [FixedPage(1), EllipsisItem];
    if showEllipsis && total > 7 {
      if current <= 3 {
        PagesSound(1, 4, current, total);
        AllSoundConcat(Pages(1, 4, current), ends, current, total);
      } else if current >= total - 2 {
        PagesSound(total - 3, total, current, total);
        AllSoundConcat(starts, Pages(total - 3, total, current), current, total);
      } else {
        var mid := Pages(Max(2, current - siblings), Min(total - 1, current + siblings), current);
        PagesSound(Max(2, current - siblings), Min(total - 1, current + siblings), current, total);
        AllSoundConcat(starts, mid, current, total);
        AllSoundConcat(starts + mid, ends, current, total);
      }
    } else {
      PagesSound(1, total, current, total);
    }
  }

  /** The strip is the buttons before the numbered part, the numbered part, and the buttons after it; the result is where the numbered part starts. */
  lemma StripBodyAt(current: int, total: int, siblings: int, showFirstLast: bool, showEllipsis: bool) returns (pre: nat)
    requires total > 1
    ensures var s := Strip(current, total, siblings, showFirstLast, showEllipsis);
      var b := Body(current, total, siblings, showEllipsis);
      pre + |b| <= |s| && forall k :: 0 <= k < |b| ==> s[pre + k] == b[k]
  {
    var b := Body(current, total, siblings, showEllipsis);
    var front := (if showFirstLast then [FirstItem(current)] else []) + [PreviousItem(current)];
    var back := [NextItem(current, total)] + (if showFirstLast then [LastItem(current, total)] else []);
    pre := |front|;
    assert Strip(current, total, siblings, showFirstLast, showEllipsis) == front + b + back;
  }

  /** Every button of the strip is sound. */
  lemma StripSound(current: int, total: int, siblings: int, showFirstLast: bool, showEllipsis: bool)
    ensures AllSound(Strip(current, total, siblings, showFirstLast, showEllipsis), current, total)
  {
    if total > 1 {
      var front := (if showFirstLast then [FirstItem(current)] else []) + [PreviousItem(current)];
      var back := [NextItem(current, total)] + (if showFirstLast then [LastItem(current, total)] else []);
      var b := Body(current, total, siblings, showEllipsis);
      BodySound(current, total, siblings, showEllipsis);
      AllSoundConcat(front, b, current, total);
      AllSoundConcat(front + b, back, current, total);
      assert Strip(current, total, siblings, showFirstLast, showEllipsis) == front + b + back;
    }
  }

  /** The index of the current page in the numbered part. */
  lemma CurrentShown(current: int, total: int, siblings: int, showEllipsis: bool) returns (j: nat)
    requires 1 <= current <= total && siblings >= 0
    ensures var b := Body(current, total, siblings, showEllipsis); j < |b| && b[j] == PageItem(current, current)
  {
    var b := Body(current, total, siblings, showEllipsis);
    if showEllipsis && total > 7 {
      if current <= 3 {
        j := current - 1;
      } else if current >= total - 2 {
        j := 2 + current - (total - 3);
      } else {
        var lo := Max(2, current - siblings);
        j := 2 + current - lo;
        assert b[j] == Pages(lo, Min(total - 1, current + siblings), current)[current - lo];
      }
    } else {
      j := current - 1;
    }
  }

  lemma PageShownAt(b: seq<Item>, j: nat, p: int, current: int)
    requires j < |b| && b[j] == PageItem(p, current)
    ensures exists k :: 0 <= k < |b| && b[k] == PageItem(p, current)
  {
  }

  /** With the default single sibling, the pages next to the current one are always shown. */
  lemma NeighboursShown(current: int, total: int, showEllipsis: bool, p: int)
    requires 1 <= current <= total && 1 <= p <= total && -1 <= p - current <= 1
    ensures var b := Body(current, total, 1, showEllipsis);
      exists k :: 0 <= k < |b| && b[k].kind == PageNumber && b[k].value == Some(p)
  {
    var b := Body(current, total, 1, showEllipsis);
    var j: int;
    if showEllipsis && total > 7 {
      if current <= 3 {
        j := p - 1;
      } else if current >= total - 2 {
        j := 2 + p - (total - 3);
      } else {
        j := 2 + p - (current - 1);
        assert b[j] == Pages(current - 1, current + 1, current)[p - (current - 1)];
      }
    } else {
      j := p - 1;
    }
    assert b[j].kind == PageNumber && b[j].value == Some(p);
  }

  /** `handlePageChange(page)`: the page handed to `onPageChange`, if any. */
  function PageChange(loading: bool, page: Option<int>, current: int, total: int): (r: Option<int>)
    ensures r.Some? <==> !loading && page.Some? && page.value != current && 1 <= page.value <= total
    ensures r.Some? ==> r == page
  {
    if !loading && page.Some? && page.value != current && 1 <= page.value <= total then page else None
  }

  /**
   * For a current page in range every button leads inside the range; so a
   * click on any enabled button other than the current page reaches
   * `onPageChange` while not loading, and the buttons disabled at either
   * end point at the current page, so they would change nothing if clicked.
   */
  lemma ButtonsStayInRange(current: int, total: int, siblings: int, showFirstLast: bool, showEllipsis: bool)
    requires 1 <= current <= total && siblings >= 0
    ensures var s := Strip(current, total, siblings, showFirstLast, showEllipsis);
      forall k :: 0 <= k < |s| ==>
        (s[k].value.Some? ==> 1 <= s[k].value.value <= total)
        && (s[k].value.Some? && s[k].value.value != current ==> PageChange(false, s[k].value, current, total) == s[k].value)
        && (s[k].disabled && s[k].kind != Ellipsis ==> s[k].value == Some(current))
  {
    StripSound(current, total, siblings, showFirstLast, showEllipsis);
  }

  /** `PaginationInfo`: the first and last item numbers of the current page, when known. */
  function InfoRange(current: int, totalItems: Option<int>, itemsPerPage: Option<int>): (r: (Option<int>, Option<int>))
    ensures r.0.Some? <==> TruthyNumber(itemsPerPage)
    ensures r.1.Some? <==> TruthyNumber(itemsPerPage) && TruthyNumber(totalItems)
  {
    var start := if TruthyNumber(itemsPerPage) then Some((current - 1) * itemsPerPage.value + 1) else None;
    var end := if TruthyNumber(itemsPerPage) && TruthyNumber(totalItems) then Some(Min(current * itemsPerPage.value, totalItems.value)) else None;
    (start, end)
  }

  /**
   * On an existing page the range is non-empty and inside the item count;
   * every page but the last shows a full page of items.
   */
  lemma InfoRangeWithinItems(current: int, totalItems: int, itemsPerPage: int)
    requires totalItems > 0 && itemsPerPage > 0
    requires 1 <= current <= CeilDiv(totalItems, itemsPerPage)
    ensures var r := InfoRange(current, Some(totalItems), Some(itemsPerPage));
      1 <= r.0.value <= r.1.value <= totalItems
      && (current < CeilDiv(totalItems, itemsPerPage) ==> r.1.value - r.0.value + 1 == itemsPerPage)
  {
    var q := CeilDiv(totalItems, itemsPerPage);
    assert (current - 1) * itemsPerPage <= (q - 1) * itemsPerPage by {
      MulMonotone(current - 1, q - 1, itemsPerPage);
    }
    assert (current - 1) * itemsPerPage >= 0 by {
      MulMonotone(0, current - 1, itemsPerPage);
    }
    assert current * itemsPerPage == (current - 1) * itemsPerPage + itemsPerPage;
    if current < q {
      MulMonotone(current, q - 1, itemsPerPage);
    }
  }

  lemma MulMonotone(a: int, b: int, n: int)
    requires a <= b && n >= 0
    ensures a * n <= b * n
  {
    assert b * n - a * n == (b - a) * n;
  }
}
