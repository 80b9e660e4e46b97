/**
 * The guards of the public card listing (src/app/api/magazines/cards/route.ts):
 * page and limit are read with `parseInt` and defaults, then checked in the
 * order page, limit, category; the first failing check answers 400. What
 * passes goes to the card query, which is not part of this model.
 */
module CardsRoute {
  import opened Wrappers
  import opened Text

  datatype CardsQuery = CardsQuery(page: Option<string>, limit: Option<string>, category: Option<string>)

  /** Either a 400 with its message, or the arguments of `getPublishedMagazineCards`; `None` numbers are `NaN`. */
  datatype CardsDecision =
    | BadRequest(error: string, hint: string)
    | Fetch(page: Option<int>, limit: Option<int>, category: Option<string>)

  const PageError: string := "Page number must be greater than 0"
  const LimitError: string := "Limit must be between 1 and 50"
  const CategoryError: string := "Invalid category. Must be \"official\" or \"unofficial\""

  /** `x < bound` where `NaN` compares false. */
  predicate Below(x: Option<int>, bound: int) {
    x.Some? && x.value < bound
  }

  /** `x > bound` where `NaN` compares false. */
  predicate Above(x: Option<int>, bound: int) {
    x.Some? && x.value > bound
  }

  predicate KnownCategory(c: string) {
    c == "official" || c == "unofficial"
  }

  /**
   * The handler up to the query: a refusal names the failing check; a
   * request that passes asks for a page of at least 1 and between 1 and 50
   * cards, unless a number is `NaN`, and for a known category or none.
   */
  function CheckCardsQuery(q: CardsQuery): (r: CardsDecision)
    ensures r.BadRequest? ==> r.error == PageError || r.error == LimitError || r.error == CategoryError
    ensures r.Fetch? ==> (r.page.Some? ==> r.page.value >= 1) && (r.limit.Some? ==> 1 <= r.limit.value <= 50)
    ensures r.Fetch? && r.category.Some? ==> KnownCategory(r.category.value)
  {
    var page := ParseIntAuto(OrDefault(q.page, "1"));
    var limit := ParseIntAuto(OrDefault(q.limit, "9"));
    if Below(page, 1) then BadRequest(PageError, "Try using page=1 for the first page")
    else if Below(limit, 1) || Above(limit, 50) then BadRequest(LimitError, "Use limit=9 for optimal performance")
    else if TruthyString(q.category) && !KnownCategory(q.category.value) then
      BadRequest(CategoryError, "Omit category parameter to get all magazines")
    else Fetch(page, limit, if TruthyString(q.category) then q.category else None)
  }

  /** The checks run in order and the first failure answers; a request passes iff no check fails. */
  lemma CheckOrder(q: CardsQuery)
    ensures var page := ParseIntAuto(OrDefault(q.page, "1"));
      var limit := ParseIntAuto(OrDefault(q.limit, "9"));
      && (Below(page, 1) ==> CheckCardsQuery(q).error == PageError)
      && (!Below(page, 1) && (Below(limit, 1) || Above(limit, 50)) ==> CheckCardsQuery(q).error == LimitError)
      && (CheckCardsQuery(q).Fetch? <==>
            !Below(page, 1) && !Below(limit, 1) && !Above(limit, 50)
            && !(TruthyString(q.category) && !KnownCategory(q.category.value)))
  {
  }

  /** The default page and limit strings parse to 1 and 9. */
  lemma DefaultsParse()
    ensures ParseIntAuto("1") == Some(1) && ParseIntAuto("9") == Some(9)
  {
    assert NatToString(1) == "1";
    ParseIntOfNatToString(1);
    assert NatToString(9) == "9";
    ParseIntOfNatToString(9);
  }

  /** With no parameters the first nine cards of every category are asked for. */
  lemma CardsDefaults(q: CardsQuery)
    requires q.page.None? && q.limit.None? && q.category.None?
    ensures CheckCardsQuery(q) == Fetch(Some(1), Some(9), None)
  {
    DefaultsParse();
    var page := ParseIntAuto(OrDefault(q.page, "1"));
    var limit := ParseIntAuto(OrDefault(q.limit, "9"));
    assert page == Some(1) && !Below(page, 1);
    assert limit == Some(9) && !Below(limit, 1) && !Above(limit, 50);
    assert !TruthyString(q.category);
  }

  /**
   * A page that is not a number parses to `NaN`, and `NaN < 1` is false, so
   * it is not refused: the query goes out with a `NaN` page.
   */
  lemma NonNumericPagePasses(q: CardsQuery)
    requires q.page.Some? && q.page.value != "" && ParseIntAuto(q.page.value).None?
    requires q.limit.None? && q.category.None?
    ensures CheckCardsQuery(q) == Fetch(None, Some(9), None)
  {
    DefaultsParse();
    var page := ParseIntAuto(OrDefault(q.page, "1"));
    var limit := ParseIntAuto(OrDefault(q.limit, "9"));
    assert page.None? && !Below(page, 1);
    assert limit == Some(9) && !Below(limit, 1) && !Above(limit, 50);
    assert !TruthyString(q.category);
  }
}
