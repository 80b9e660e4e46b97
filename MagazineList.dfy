/**
 * The public magazine list page (src/app/magazine/MagazineListContent.tsx):
 * the page number and category filter live in the URL's query string,
 * are read back from it, and are written to it by `updateURL` whenever the
 * reader changes page or category. The query string is read as
 * `URLSearchParams` reads it: parts separated by `&`, each split at its
 * first `=`, and `get` returns the first part with the key.
 */
module MagazineList {
  import opened Wrappers
  import opened Text

  datatype CategoryFilter = All | Official | Unofficial

  /** The filter as it is written in a URL. */
  function CategoryName(c: CategoryFilter): string
  {
    match c
    case All => "all"
    case Official => "official"
    case Unofficial => "unofficial"
  }

  // ---- reading a query string ----

  /** One `key=value` part; a part with no `=` is a key with an empty value. */
  function Pair(part: string): (kv: (string, string))
    ensures IndexOf(part, '=') < 0 ==> kv == (part, "")
    ensures IndexOf(part, '=') >= 0 ==> part == kv.0 + "=" + kv.1 && '=' !in kv.0
  {
    var i := IndexOf(part, '=');
    if i < 0 then (part, "") else (part[..i], part[i + 1..])
  }

  /** The value of the first part whose key is `key`. */
  function Lookup(parts: seq<string>, key: string): (r: Option<string>)
    decreases |parts|
  {
    if |parts| == 0 then None
    else if Pair(parts[0]).0 == key then Some(Pair(parts[0]).1)
    else Lookup(parts[1..], key)
  }

  /** `searchParams.get(key)`. */
  function SearchGet(query: string, key: string): Option<string> {
    Lookup(Split(query, '&'), key)
  }

  /** The query string of a path: what follows its first `?`, or nothing. */
  function SearchOf(path: string): (q: string)
    ensures '?' !in path ==> q == ""
  {
    var i := IndexOf(path, '?');
    if i < 0 then "" else path[i + 1..]
  }

  /** `parsePageFromURL`: an absent, empty, non-numeric or non-positive page is page 1. */
  function ParsePage(query: string): (r: int)
    ensures r >= 1
    ensures var page := SearchGet(query, "page");
      var parsed := if TruthyString(page) then ParseIntDecimal(page.value) else Some(1);
      (r == 1 || (parsed.Some? && r == parsed.value))
      && (parsed.Some? && parsed.value > 0 ==> r == parsed.value)
  {
    var page := SearchGet(query, "page");
    var parsed := if TruthyString(page) then ParseIntDecimal(page.value) else Some(1);
    if parsed.Some? && parsed.value > 0 then parsed.value else 1
  }

  /** `parseCategoryFromURL`: a known filter name is that filter, anything else is `all`. */
  function ParseCategory(query: string): (c: CategoryFilter)
    ensures SearchGet(query, "category") == Some(CategoryName(c)) || c == All
    ensures forall d :: SearchGet(query, "category") == Some(CategoryName(d)) ==> c == d
  {
    var v := SearchGet(query, "category");
    if v == Some("official") then Official
    else if v == Some("unofficial") then Unofficial
    else All
  }

  // ---- writing the URL ----

  /** One `key=value` part as `URLSearchParams` writes it (keys and values here need no escaping). */
  function Param(key: string, value: string): string {
    key + "=" + value
  }

  /** The parts `updateURL` sets, in the order it sets them. */
  function UrlParts(page: int, category: CategoryFilter): (parts: seq<string>)
    ensures |parts| <= 2
  {
    (if page > 1 then [Param("page", NatToString(page))] else [])
    + (if category != All then [Param("category", CategoryName(category))] else [])
  }

  /** `updateURL(page, category)`: the path pushed to the router. */
  function UpdateURL(page: int, category: CategoryFilter): (path: string)
    ensures "/magazine" <= path
  {
    var qs := Join(UrlParts(page, category), "&");
    if qs == "" then "/magazine" else "/magazine?" + qs
  }

  /** With no parameters to set the path is exactly `/magazine`, and otherwise it carries a query string. */
  lemma UpdateURLBare(page: int, category: CategoryFilter)
    ensures UpdateURL(page, category) == "/magazine" <==> page <= 1 && category == All
  {
    var parts := UrlParts(page, category);
    if |parts| > 0 {
      assert |parts[0]| > 0;
      assert Join(parts, "&") != "" by {
        if |parts| > 1 {
          assert Join(parts, "&") == parts[0] + "&" + Join(parts[1..], "&");
        }
      }
      assert |UpdateURL(page, category)| > |"/magazine"|;
    }
  }

  /** A part `key=value` reads back as that key and value when the key holds no `=`. */
  lemma ParamReadsBack(key: string, value: string)
    requires '=' !in key
    ensures Pair(Param(key, value)) == (key, value)
  {
    IndexOfAfterPrefix(key, '=', value);
    var s := Param(key, value);
    assert s == key + ['='] + value;
    assert s[..|key|] == key;
    assert s[|key| + 1..] == value;
  }

  lemma ParamHasNoAmpersand(key: string, value: string)
    requires '&' !in key && '&' !in value
    ensures '&' !in Param(key, value)
  {
  }

  lemma DigitsHaveNoSeparator(s: string)
    requires AllDigits(s)
    ensures '&' !in s
  {
  }

  lemma CategoryNameHasNoSeparator(c: CategoryFilter)
    ensures '&' !in CategoryName(c) && CategoryName(c) != ""
  {
  }

  /** What follows the first `?` of a path whose prefix holds none. */
  lemma SearchOfQuery(prefix: string, qs: string)
    requires '?' !in prefix
    ensures SearchOf(prefix + "?" + qs) == qs
  {
    IndexOfAfterPrefix(prefix, '?', qs);
    assert prefix + "?" + qs == prefix + ['?'] + qs;
    assert (prefix + "?" + qs)[|prefix| + 1..] == qs;
  }

  /** No part `updateURL` sets holds the separator. */
  lemma UrlPartsSeparated(page: int, category: CategoryFilter)
    ensures forall i :: 0 <= i < |UrlParts(page, category)| ==> '&' !in UrlParts(page, category)[i]
  {
    var parts := UrlParts(page, category);
    if page > 1 {
      DigitsHaveNoSeparator(NatToString(page));
      ParamHasNoAmpersand("page", NatToString(page));
    }
    CategoryNameHasNoSeparator(category);
    ParamHasNoAmpersand("category", CategoryName(category));
  }

  /** The query string the URL holds, split at `&`, is the parts `updateURL` set (or one empty part). */
  lemma SplitUpdateURL(page: int, category: CategoryFilter)
    ensures var parts := UrlParts(page, category);
      Split(SearchOf(UpdateURL(page, category)), '&') == if |parts| == 0 then [""] else parts
  {
    var parts := UrlParts(page, category);
    var qs := Join(parts, "&");
    if |parts| == 0 {
      assert SearchOf("/magazine") == "";
      assert Split("", '&') == [""];
    } else {
      UpdateURLBare(page, category);
      assert UpdateURL(page, category) == "/magazine" + "?" + qs;
      SearchOfQuery("/magazine", qs);
      UrlPartsSeparated(page, category);
      SplitJoin(parts, '&');
      assert Join(parts, ['&']) == qs;
    }
  }

  /** The page is found in the parts `updateURL` set iff it is past the first. */
  lemma LookupUrlPage(page: int, category: CategoryFilter)
    requires page >= 1
    ensures var parts := UrlParts(page, category);
      Lookup(if |parts| == 0 then [""] else parts, "page") == (if page > 1 then Some(NatToString(page)) else None)
  {
    ParamReadsBack("category", CategoryName(category));
    if page > 1 {
      ParamReadsBack("page", NatToString(page));
    } else if category == All {
      assert Pair("") == ("", "");
    }
  }

  /** The category is found in the parts `updateURL` set iff it is not `all`. */
  lemma LookupUrlCategory(page: int, category: CategoryFilter)
    requires page >= 1
    ensures var parts := UrlParts(page, category);
      Lookup(if |parts| == 0 then [""] else parts, "category") == (if category != All then Some(CategoryName(category)) else None)
  {
    var c := Param("category", CategoryName(category));
    ParamReadsBack("category", CategoryName(category));
    if page > 1 {
      var p := Param("page", NatToString(page));
      ParamReadsBack("page", NatToString(page));
      if category != All {
        assert Lookup([p, c], "category") == Lookup([c], "category");
      }
    } else if category == All {
      assert Pair("") == ("", "");
    }
  }

  /** What `searchParams.get` finds in the URL `updateURL` pushes. */
  lemma SearchOfUpdateURL(page: int, category: CategoryFilter)
    requires page >= 1
    ensures SearchGet(SearchOf(UpdateURL(page, category)), "page") == (if page > 1 then Some(NatToString(page)) else None)
    ensures SearchGet(SearchOf(UpdateURL(page, category)), "category") == (if category != All then Some(CategoryName(category)) else None)
  {
    SplitUpdateURL(page, category);
    LookupUrlPage(page, category);
    LookupUrlCategory(page, category);
  }

  /** Reading back the URL that `updateURL(p, c)` pushes gives `(p, c)` for every page `p >= 1`. */
  lemma URLRoundTrip(page: int, category: CategoryFilter)
    requires page >= 1
    ensures ParsePage(SearchOf(UpdateURL(page, category))) == page
    ensures ParseCategory(SearchOf(UpdateURL(page, category))) == category
  {
    var query := SearchOf(UpdateURL(page, category));
    SearchOfUpdateURL(page, category);
    PageReadsBack(query, page);
    CategoryReadsBack(query, category);
  }

  /** A query whose page parameter is `String(page)`, or absent for page 1, reads back as `page`. */
  lemma PageReadsBack(query: string, page: int)
    requires page >= 1
    requires SearchGet(query, "page") == (if page > 1 then Some(NatToString(page)) else None)
    ensures ParsePage(query) == page
  {
    var v := SearchGet(query, "page");
    if page > 1 {
      var digits := NatToString(page);
      ParseIntOfNatToString(page);
      assert v == Some(digits) && TruthyString(v);
      assert ParseIntDecimal(v.value) == Some(page);
    } else {
      assert !TruthyString(v);
    }
  }

  /** A query whose category parameter names the filter, or is absent for `all`, reads back as that filter. */
  lemma CategoryReadsBack(query: string, category: CategoryFilter)
    requires SearchGet(query, "category") == (if category != All then Some(CategoryName(category)) else None)
    ensures ParseCategory(query) == category
  {
  }

  // ---- what the page asks for and shows ----

  /** The card request: nine cards of the page, with no category filter for `all`. */
  function CardsRequest(page: int, category: CategoryFilter): (r: (int, int, Option<string>))
    ensures r.0 == page && r.1 == 9
    ensures r.2.None? <==> category == All
    ensures r.2.Some? ==> r.2.value == CategoryName(category)
  {
    (page, 9, if category == All then None else Some(CategoryName(category)))
  }

  /** `pagination?.totalPages || 1`, and the pagination is shown iff that is more than 1. */
  function ShowPagination(totalPages: Option<int>): (show: bool)
    ensures show <==> totalPages.Some? && totalPages.value > 1
  {
    (if TruthyNumber(totalPages) then totalPages.value else 1) > 1
  }

  /**
   * The list page's state: the page and category it shows and the path
   * last pushed to the router. `InSync` says the URL reads back as the
   * state, which is what makes a reload or a shared link show the same list.
   */
  class ListPage {
    var currentPage: int
    var currentCategory: CategoryFilter
    var location: string

    ghost predicate InSync()
      reads this
    {
      ParsePage(SearchOf(location)) == currentPage && ParseCategory(SearchOf(location)) == currentCategory
    }

    /** The initial state, parsed from the URL the page was opened at. */
    constructor (url: string)
      ensures location == url
      ensures currentPage == ParsePage(SearchOf(url)) && currentCategory == ParseCategory(SearchOf(url))
      ensures InSync()
    {
      location := url;
      currentPage := ParsePage(SearchOf(url));
      currentCategory := ParseCategory(SearchOf(url));
    }

    /** The effect that re-reads the state when the URL changes. */
    method Sync(url: string)
      modifies this
      ensures location == url && InSync()
    {
      location := url;
      currentPage := ParsePage(SearchOf(url));
      currentCategory := ParseCategory(SearchOf(url));
    }

    /** `handlePageChange(page)`: the category is kept. */
    method HandlePageChange(page: int)
      modifies this
      ensures currentPage == page && currentCategory == old(currentCategory)
      ensures location == UpdateURL(page, old(currentCategory))
      ensures page >= 1 ==> InSync()
    {
      currentPage := page;
      location := UpdateURL(page, currentCategory);
      if page >= 1 {
        URLRoundTrip(page, currentCategory);
      }
    }

    /** `handleCategoryChange(category)`: the page goes back to 1. */
    method HandleCategoryChange(category: CategoryFilter)
      modifies this
      ensures currentCategory == category && currentPage == 1
      ensures location == UpdateURL(1, category)
      ensures InSync()
    {
      currentCategory := category;
      currentPage := 1;
      location := UpdateURL(1, category);
      URLRoundTrip(1, category);
    }
  }
}
