/**
 * The admin magazine table (src/components/admin/MagazineAdminList.tsx):
 * its own five-page pagination strip, the preview action and the
 * confirm-before-delete action.
 */
module AdminList {
  import opened Wrappers
  import opened Text

  datatype Button = PrevButton(target: int) | PageButton(page: int, primary: bool) | NextButton(target: int)

  function Max(a: int, b: int): int { if a >= b then a else b }
  function Min(a: int, b: int): int { if a <= b then a else b }

  /** The page-number buttons from `lo` to `hi`, the current one primary. */
  function Window(lo: int, hi: int, page: int): (r: seq<Button>)
    ensures |r| == Max(0, hi - lo + 1)
    ensures forall k :: 0 <= k < |r| ==> r[k] == PageButton(lo + k, lo + k == page)
  {
    seq(Max(0, hi - lo + 1), k => PageButton(lo + k, lo + k == page))
  }

  /** The strip by parts: previous when not on page 1, at most two pages either side, next when not on the last. */
  function AdminStrip(page: int, totalPages: int): seq<Button> {
    (if page > 1 then [PrevButton(page - 1)] else [])
    + Window(Max(1, page - 2), Min(totalPages, page + 2), page)
    + (if page < totalPages then [NextButton(page + 1)] else [])
  }

  /** `renderPagination()`: nothing without pagination data or with one page, else the strip built in a loop. */
  method RenderPagination(pagination: Option<(int, int)>) returns (r: Option<seq<Button>>)
    ensures r.None? <==> pagination.None? || pagination.value.1 <= 1
    ensures r.Some? ==> r.value == AdminStrip(pagination.value.0, pagination.value.1)
  {
    if pagination.None? || pagination.value.1 <= 1 {
      return None;
    }
    var (page, totalPages) := pagination.value;
    var pages: seq<Button> := [];
    if page > 1 {
      pages := pages + [PrevButton(page - 1)];
    }
    ghost var head := pages;
    var startPage := Max(1, page - 2);
    var endPage := Min(totalPages, page + 2);
    var i := startPage;
    while i <= endPage
      invariant startPage <= i <= Max(startPage, endPage + 1)
      invariant pages == head + Window(startPage, i - 1, page)
    {
      assert Window(startPage, i, page) == Window(startPage, i - 1, page) + [PageButton(i, i == page)];
      pages := pages + [PageButton(i, i == page)];
      i := i + 1;
    }
    assert Window(startPage, i - 1, page) == Window(startPage, endPage, page);
    if page < totalPages {
      pages := pages + [NextButton(page + 1)];
    }
    return Some(pages);
  }

  /**
   * On a page in range the strip shows at most five numbers, the current
   * one among them and the only primary one, and every button leads to a
   * page in range.
   */
  lemma AdminStripShape(page: int, totalPages: int)
    requires 1 <= page <= totalPages
    ensures var w := Window(Max(1, page - 2), Min(totalPages, page + 2), page);
      1 <= |w| <= 5
      && (exists k :: 0 <= k < |w| && w[k] == PageButton(page, true))
      && (forall k :: 0 <= k < |w| && w[k].primary ==> w[k].page == page)
    ensures forall b :: b in AdminStrip(page, totalPages) ==>
      match b
      case PrevButton(t) => 1 <= t <= totalPages && t == page - 1
      case PageButton(p, _) => 1 <= p <= totalPages
      case NextButton(t) => 1 <= t <= totalPages && t == page + 1
  {
    var lo := Max(1, page - 2);
    var w := Window(lo, Min(totalPages, page + 2), page);
    assert w[page - lo] == PageButton(page, true);
  }

  datatype PreviewAction = Navigate(path: string) | EditDraft(id: int)

  /** `handlePreview`: a published magazine opens its public page; a draft alerts and opens the editor. */
  function HandlePreview(published: bool, id: nat): (a: PreviewAction)
    ensures published ==> a.Navigate? && "/magazine/" <= a.path
    ensures !published ==> a == EditDraft(id)
  {
    if published then Navigate("/magazine/" + NatToString(id)) else EditDraft(id)
  }

  /** The public page reads the magazine id back from the path the preview opens. */
  lemma PreviewPathRoundTrip(id: nat)
    ensures var a := HandlePreview(true, id);
      |a.path| > 10 && ParseIntDecimal(a.path[10..]) == Some(id)
  {
    var a := HandlePreview(true, id);
    assert a.path[10..] == NatToString(id);
    ParseIntOfNatToString(id);
  }

  /** `handleDeleteClick`: the id handed to the delete mutation, only after confirmation. */
  function HandleDeleteClick(confirmed: bool, id: int): (r: Option<int>)
    ensures r.Some? <==> confirmed
    ensures r.Some? ==> r.value == id
  {
    if confirmed then Some(id) else None
  }
}
