/**
 * The admin magazine endpoint (src/app/api/control/magazines/route.ts).
 * GET checks the token, then either passes a count through or filters the
 * whole magazine list by status and category, sorts it newest first and
 * cuts one page out of it. POST checks the token, validates the body in a
 * fixed order and builds the create request with its defaults for
 * `createMagazine`, whose result it turns into the answer. The database
 * reads are parameters.
 */
module ControlMagazines {
  import opened Wrappers
  import opened Text
  import opened Sorting
  import opened Credits
  import opened BlockEditor
  import opened MagazineHelpers
  import opened Management
  import TokenGenerator
  import Pagination

  // ---- GET ----

  /** The fields of a stored magazine that the listing looks at. Dates are milliseconds since the epoch. */
  datatype AdminMagazine = AdminMagazine(id: int, title: string, status: string, category: string, createdDate: Option<int>)

  /** The query string; `None` is a parameter that is not there. */
  datatype GetQuery = GetQuery(
    token: Option<string>, page: Option<string>, limit: Option<string>,
    status: Option<string>, category: Option<string>, count: Option<string>)

  datatype GetResponse =
    | Unauthorized
    | InvalidToken
    | Count(count: int, adminRole: string)
    | Listing(data: seq<AdminMagazine>, page: Option<int>, limit: Option<int>, total: nat, totalPages: Option<int>, adminRole: string)
    | ServerError(error: string)
  {
    function Status(): int {
      match this
      case Unauthorized => 401
      case InvalidToken => 403
      case ServerError(_) => 500
      case _ => 200
    }
  }

  /** The status and category filters; an empty parameter filters nothing. */
  predicate Matches(m: AdminMagazine, status: Option<string>, category: Option<string>) {
    (!TruthyString(status) || m.status == status.value) && (!TruthyString(category) || m.category == category.value)
  }

  /** The two `filter` calls, one after the other. */
  function Filtered(all: seq<AdminMagazine>, status: Option<string>, category: Option<string>): (r: seq<AdminMagazine>)
    ensures forall m :: m in r <==> m in all && Matches(m, status, category)
    ensures |r| <= |all|
    decreases |all|
  {
    if |all| == 0 then []
    else (if Matches(all[0], status, category) then [all[0]] else []) + Filtered(all[1..], status, category)
  }

  /** `new Date(m.createdDate || 0).getTime()`. */
  function CreatedTime(m: AdminMagazine): int {
    m.createdDate.GetOr(0)
  }

  /** The comparator `dateB - dateA` sorts ascending on the negated time. */
  function NewestFirstKey(m: AdminMagazine): int {
    -CreatedTime(m)
  }

  /** The filtered list, newest first. */
  function Sorted(all: seq<AdminMagazine>, status: Option<string>, category: Option<string>): seq<AdminMagazine> {
    SortByKey(Filtered(all, status, category), NewestFirstKey)
  }

  /** The listing holds exactly the matching magazines, each as often as before, newest first. */
  lemma SortedListing(all: seq<AdminMagazine>, status: Option<string>, category: Option<string>)
    ensures multiset(Sorted(all, status, category)) == multiset(Filtered(all, status, category))
    ensures forall m :: m in Sorted(all, status, category) <==> m in all && Matches(m, status, category)
    ensures forall i, j :: 0 <= i < j < |Sorted(all, status, category)| ==>
      CreatedTime(Sorted(all, status, category)[i]) >= CreatedTime(Sorted(all, status, category)[j])
  {
    var f := Filtered(all, status, category);
    SortByKeySorted(f, NewestFirstKey);
    forall m ensures m in Sorted(all, status, category) <==> m in f {
      assert m in multiset(Sorted(all, status, category)) <==> m in multiset(f);
    }
  }

  /** `startIndex` and `endIndex`; `NaN` in, `NaN` out. */
  function PageBounds(page: Option<int>, limit: Option<int>): (Option<int>, Option<int>) {
    if page.Some? && limit.Some? then
      (Some((page.value - 1) * limit.value), Some((page.value - 1) * limit.value + limit.value))
    else (None, None)
  }

  function PageOf<T>(s: seq<T>, page: Option<int>, limit: Option<int>): seq<T> {
    JsSlice(s, PageBounds(page, limit).0, PageBounds(page, limit).1)
  }

  /** `Math.ceil(total / limit)`; `None` stands for the `NaN` and `Infinity` that JSON writes as `null`. */
  function TotalPages(total: nat, limit: Option<int>): (r: Option<int>)
    ensures limit.Some? && limit.value > 0 ==> r == Some(CeilDiv(total, limit.value))
  {
    if limit.None? || limit.value == 0 then None
    else if limit.value > 0 then Some(CeilDiv(total, limit.value))
    else Some(-(total / -limit.value))
  }

  /** For a page and a limit of at least 1, the page is the window `[(page-1)*limit, page*limit)` clipped to the list. */
  lemma PageIsWindow<T>(s: seq<T>, page: int, limit: int)
    requires page >= 1 && limit >= 1
    ensures PageOf(s, Some(page), Some(limit)) == s[Pagination.Min((page - 1) * limit, |s|)..Pagination.Min(page * limit, |s|)]
  {
    var lo := (page - 1) * limit;
    Pagination.MulMonotone(0, page - 1, limit);
    assert lo + limit == page * limit;
    assert PageBounds(Some(page), Some(limit)) == (Some(lo), Some(lo + limit));
  }

  /** The pages 1 to n, one after the other. */
  function PagesUpTo<T>(s: seq<T>, limit: int, n: nat): seq<T>
    requires limit >= 1
  {
    if n == 0 then [] else PagesUpTo(s, limit, n - 1) + PageOf(s, Some(n), Some(limit))
  }

  lemma {:induction false} PagesUpToPrefix<T>(s: seq<T>, limit: int, n: nat)
    requires limit >= 1
    ensures PagesUpTo(s, limit, n) == s[..Pagination.Min(n * limit, |s|)]
  {
    if n > 0 {
      PagesUpToPrefix(s, limit, n - 1);
      PageIsWindow(s, n, limit);
      var lo := (n - 1) * limit;
      assert n * limit == lo + limit;
      Pagination.MulMonotone(0, n - 1, limit);
      PrefixThenWindow(s, lo, lo + limit);
    }
  }

  /** The prefix up to `lo` followed by the window `[lo, hi)`, both clipped to the list, is the prefix up to `hi`. */
  lemma PrefixThenWindow<T>(s: seq<T>, lo: int, hi: int)
    requires 0 <= lo <= hi
    ensures s[..Pagination.Min(lo, |s|)] + s[Pagination.Min(lo, |s|)..Pagination.Min(hi, |s|)] == s[..Pagination.Min(hi, |s|)]
  {
  }

  /** The pages 1 to `totalPages` together are the whole list, in order and without overlap. */
  lemma PagesCoverListing<T>(s: seq<T>, limit: int)
    requires limit >= 1
    ensures PagesUpTo(s, limit, CeilDiv(|s|, limit)) == s
  {
    PagesUpToPrefix(s, limit, CeilDiv(|s|, limit));
  }

  /** A page from 1 on is empty exactly when it lies beyond `totalPages`. */
  lemma PageEmptyBeyondLast<T>(s: seq<T>, page: int, limit: int)
    requires page >= 1 && limit >= 1
    ensures |PageOf(s, Some(page), Some(limit))| > 0 <==> page <= TotalPages(|s|, Some(limit)).value
  {
    PageIsWindow(s, page, limit);
    PageStartsInside(|s|, page, limit);
  }

  /** Page `page` starts inside a list of `n` items exactly when `page` is at most `Math.ceil(n / limit)`. */
  lemma PageStartsInside(n: nat, page: int, limit: int)
    requires page >= 1 && limit >= 1
    ensures (page - 1) * limit < n <==> page <= CeilDiv(n, limit)
    ensures page * limit == (page - 1) * limit + limit
  {
    var q := CeilDiv(n, limit);
    if page <= q {
      Pagination.MulMonotone(page - 1, q - 1, limit);
    } else {
      Pagination.MulMonotone(q, page - 1, limit);
    }
  }

  /** The whole GET handler; the two database reads are passed in, a failure carrying the error it reported. */
  method Get(cfg: TokenGenerator.Config, isoNow: string, q: GetQuery,
             countResult: Result<int, Option<string>>, allResult: Result<seq<AdminMagazine>, Option<string>>)
    returns (r: GetResponse)
    ensures !TruthyString(q.token) ==> r == Unauthorized
    ensures TruthyString(q.token) && TokenGenerator.TokenRole(cfg, TokenGenerator.DateKey(isoNow), q.token.value).None? ==> r == InvalidToken
    ensures TruthyString(q.token) && TokenGenerator.TokenRole(cfg, TokenGenerator.DateKey(isoNow), q.token.value).Some? ==>
      var role := TokenGenerator.TokenRole(cfg, TokenGenerator.DateKey(isoNow), q.token.value).value;
      var page := ParseIntAuto(OrDefault(q.page, "1"));
      var limit := ParseIntAuto(OrDefault(q.limit, "20"));
      if q.count == Some("true") then
        (countResult.Success? ==> r == Count(countResult.value, role))
        && (countResult.Failure? ==> r == ServerError(OrDefault(countResult.error, "Failed to get count")))
      else
        (allResult.Failure? ==> r == ServerError(OrDefault(allResult.error, "Failed to get magazines")))
        && (allResult.Success? ==>
              var sorted := Sorted(allResult.value, q.status, q.category);
              r == Listing(PageOf(sorted, page, limit), page, limit, |sorted|, TotalPages(|sorted|, limit), role))
  {
    if !TruthyString(q.token) {
      return Unauthorized;
    }
    var role := TokenGenerator.GetTokenRole(cfg, isoNow, q.token.value);
    if role.None? {
      return InvalidToken;
    }
    var page := ParseIntAuto(OrDefault(q.page, "1"));
    var limit := ParseIntAuto(OrDefault(q.limit, "20"));
    if q.count == Some("true") {
      match countResult
      case Success(n) => return Count(n, role.value);
      case Failure(e) => return ServerError(OrDefault(e, "Failed to get count"));
    }
    match allResult
    case Failure(e) =>
      return ServerError(OrDefault(e, "Failed to get magazines"));
    case Success(all) =>
      var sorted := SortNewestFirst(Filtered(all, q.status, q.category));
      var bounds := PageBounds(page, limit);
      return Listing(JsSlice(sorted, bounds.0, bounds.1), page, limit, |sorted|, TotalPages(|sorted|, limit), role.value);
  }

  /** `magazines.sort((a, b) => dateB - dateA)`: the array sorted in place, newest first. */
  method SortNewestFirst(filtered: seq<AdminMagazine>) returns (sorted: seq<AdminMagazine>)
    ensures sorted == SortByKey(filtered, NewestFirstKey)
  {
    var a := new AdminMagazine[|filtered|](i requires 0 <= i < |filtered| => filtered[i]);
    assert a[..] == filtered;
    SortInPlace(a, NewestFirstKey);
    sorted := a[..];
  }

  // ---- POST ----

  /** A block of the request body as received: the type and the order may be missing or of the wrong kind. */
  datatype BlockBody = BlockBody(kind: Option<string>, order: Option<int>, markdown: Option<string>, imageUrl: Option<string>, imageSource: Option<string>)

  datatype BlocksField = NoBlocks | NotAnArray | BlockArray(items: seq<BlockBody>)

  datatype CreditsField = CreditsString(text: string) | CreditsList(items: seq<Credit>) | OtherCredits

  datatype PostBody = PostBody(
    title: Option<string>, subtitle: Option<string>, category: Option<string>, status: Option<string>,
    brandName: Option<string>, brandUrl: Option<string>, credits: CreditsField, blocks: BlocksField)

  /** The request body: JSON that `request.json()` reads, or a body it rejects. */
  datatype RequestBody = JsonBody(body: PostBody) | InvalidJson

  /** What the handler does with a request: refuse it, fail in the catch, or ask `createMagazine` for this magazine. */
  datatype PostDecision =
    | PostUnauthorized
    | BadRequest(error: string)
    | InternalError(status: int, error: string)
    | Create(role: string, payload: MagazineInput)

  /** The answer once `createMagazine` has run: 201 with the magazine, or 400 with its error. */
  datatype PostResponse = Refused(status: int, error: string) | Created(magazine: MagazineWithBlocks, createdBy: string)

  function Respond(role: string, created: Result<MagazineWithBlocks, string>): (r: PostResponse)
    ensures created.Success? <==> r.Created?
    ensures r.Created? ==> r.magazine == created.value && r.createdBy == role
    ensures r.Refused? ==> r.status == 400 && r.error == OrDefault(Some(created.error), "Failed to create magazine")
  {
    match created
    case Success(m) => Created(m, role)
    case Failure(e) => Refused(400, OrDefault(Some(e), "Failed to create magazine"))
  }

  /** A block the handler accepts: a known type, a numeric order and the content its type needs. */
  predicate BlockOk(b: BlockBody) {
    && (b.kind == Some("text") || b.kind == Some("image")) && b.order.Some?
    && (b.kind == Some("text") ==> !Missing(b.markdown)) && (b.kind == Some("image") ==> !Missing(b.imageUrl))
  }

  /** The complaint about the block at 0-based position `i`, if any, in the order the handler checks. */
  function BlockError(b: BlockBody, i: nat): (r: Option<string>)
    ensures r.None? <==> BlockOk(b)
  {
    var prefix := "Block " + NatToString(i + 1) + ": ";
    if !(b.kind == Some("text") || b.kind == Some("image")) then Some(prefix + "Invalid block type. Must be 'text' or 'image'")
    else if b.order.None? then Some(prefix + "Block order must be a number")
    else if b.kind == Some("text") && Missing(b.markdown) then Some(prefix + "Text block must have markdown content")
    else if b.kind == Some("image") && Missing(b.imageUrl) then Some(prefix + "Image block must have imageUrl")
    else None
  }

  /** The validation loop: the first failing block's complaint, or nothing. */
  method ValidateBlocks(blocks: seq<BlockBody>) returns (err: Option<string>)
    ensures err.None? <==> forall i :: 0 <= i < |blocks| ==> BlockError(blocks[i], i).None?
    ensures err.Some? ==> exists i :: (0 <= i < |blocks| && err == BlockError(blocks[i], i)
      && forall j :: 0 <= j < i ==> BlockError(blocks[j], j).None?)
  {
    var i := 0;
    while i < |blocks|
      invariant 0 <= i <= |blocks|
      invariant forall j :: 0 <= j < i ==> BlockError(blocks[j], j).None?
    {
      var e := BlockError(blocks[i], i);
      if e.Some? {
        assert 0 <= i < |blocks| && e == BlockError(blocks[i], i);
        return e;
      }
      i := i + 1;
    }
    return None;
  }

  /** The body's complaint before any block is looked at. */
  function BodyError(body: PostBody): (e: Option<string>)
    ensures e.None? <==> !Missing(body.title) && !Missing(body.brandName) && body.blocks.BlockArray? && |body.blocks.items| > 0
    ensures Missing(body.title) ==> e == Some("Magazine title is required")
  {
    if Missing(body.title) then Some("Magazine title is required")
    else if Missing(body.brandName) then Some("Brand name is required")
    else if !body.blocks.BlockArray? || |body.blocks.items| == 0 then Some("At least one block is required")
    else None
  }

  /** `typeof credits === 'string' ? convert(credits) : Array.isArray(credits) ? credits : []`. */
  function CreditsOf(c: CreditsField): (cs: seq<Credit>)
    ensures c.CreditsString? ==> forall i :: 0 <= i < |cs| ==> Complete(cs[i])
    ensures c.CreditsList? ==> cs == c.items
    ensures c.OtherCredits? ==> cs == []
  {
    match c
    case CreditsString(t) => ParseCredits(t)
    case CreditsList(items) => items
    case OtherCredits => []
  }

  function BlockInputOf(b: BlockBody): (r: BlockInput)
    requires BlockOk(b)
    ensures r.order == b.order.value
    ensures b.kind == Some("text") <==> r.kind == TextBlock
    ensures r.kind == TextBlock ==> r.markdown == b.markdown && r.imageUrl.None? && r.imageSource.None?
    ensures r.kind == ImageBlock ==> r.imageUrl == b.imageUrl && r.imageSource == b.imageSource && r.markdown.None?
  {
    if b.kind == Some("text") then BlockInput(TextBlock, b.order.value, b.markdown, None, None)
    else BlockInput(ImageBlock, b.order.value, None, b.imageUrl, b.imageSource)
  }

  predicate BlocksValid(blocks: seq<BlockBody>) {
    forall i :: 0 <= i < |blocks| ==> BlockOk(blocks[i])
  }

  function BlockInputsOf(blocks: seq<BlockBody>): (r: seq<BlockInput>)
    requires BlocksValid(blocks)
    ensures |r| == |blocks|
    ensures forall i :: 0 <= i < |blocks| ==> r[i] == BlockInputOf(blocks[i])
  {
    seq(|blocks|, i requires 0 <= i < |blocks| => BlockInputOf(blocks[i]))
  }

  /** The request `createMagazine` receives. */
  function Payload(body: PostBody): (p: MagazineInput)
    requires BodyError(body).None? && BlocksValid(body.blocks.items)
    ensures p.title.Some? && p.brandName.Some? && p.category.Some? && p.status.Some? && p.credits.Some?
    ensures p.blocks.Some? && |p.blocks.value| == |body.blocks.items|
  {
    MagazineInput(
      Some(Trim(body.title.value)), TrimOrNull(body.subtitle),
      Some(OrDefault(body.category, "official")), Some(OrDefault(body.status, "published")),
      Some(Trim(body.brandName.value)), TrimOrNull(body.brandUrl),
      Some(CreditsOf(body.credits)), Some(BlockInputsOf(body.blocks.items)))
  }

  /**
   * A body that passes the route's checks passes `createMagazine`'s own
   * checks, and is an official, published magazine unless it says otherwise.
   */
  lemma PayloadAccepted(body: PostBody)
    requires BodyError(body).None? && BlocksValid(body.blocks.items)
    ensures !Missing(Payload(body).title) && !Missing(Payload(body).brandName)
    ensures body.status.None? ==> Payload(body).status == Some("published")
    ensures body.category.None? ==> Payload(body).category == Some("official")
  {
    PayloadTitles(body);
    PayloadDefaults(body);
  }

  lemma PayloadDefaults(body: PostBody)
    requires BodyError(body).None? && BlocksValid(body.blocks.items)
    ensures body.status.None? ==> Payload(body).status == Some("published")
    ensures body.category.None? ==> Payload(body).category == Some("official")
  {
  }

  /** The request carries one block per body block, with its kind's fields only (see `BlockInputOf`). */
  lemma PayloadBlocks(body: PostBody)
    requires BodyError(body).None? && BlocksValid(body.blocks.items)
    ensures Payload(body).blocks.Some? && |Payload(body).blocks.value| == |body.blocks.items| > 0
    ensures forall i :: 0 <= i < |body.blocks.items| ==> Payload(body).blocks.value[i] == BlockInputOf(body.blocks.items[i])
  {
  }

  lemma PayloadTitles(body: PostBody)
    requires BodyError(body).None? && BlocksValid(body.blocks.items)
    ensures !Missing(Payload(body).title) && !Missing(Payload(body).brandName)
  {
    TrimIdempotentNonBlank(body.title.value);
    TrimIdempotentNonBlank(body.brandName.value);
  }

  lemma TrimIdempotentNonBlank(s: string)
    requires !IsBlank(s)
    ensures !IsBlank(Trim(s))
  {
  }

  /** Credits given as text go through the colon parser, so a well-formed credits text is stored as its credits. */
  lemma PostedCreditsText(cs: seq<Credit>)
    requires forall i :: 0 <= i < |cs| ==> Representable(cs[i])
    ensures CreditsOf(CreditsString(CreditsText(cs))) == cs
  {
    CreditsRoundTrip(cs);
  }

  /** The POST handler up to the call of `createMagazine`: authentication, then validation in order, then the request. */
  method Post(cfg: TokenGenerator.Config, isoNow: string, token: Option<string>, request: RequestBody)
    returns (r: PostDecision)
    ensures TokenGenerator.TokenRole(cfg, TokenGenerator.DateKey(isoNow), token.GetOr("")).None? ==> r == PostUnauthorized
    ensures TokenGenerator.TokenRole(cfg, TokenGenerator.DateKey(isoNow), token.GetOr("")).Some? && request.InvalidJson? ==>
      r == InternalError(500, "Internal server error")
    ensures (TokenGenerator.TokenRole(cfg, TokenGenerator.DateKey(isoNow), token.GetOr("")).Some? && request.JsonBody?
      && BodyError(request.body).Some?) ==>
      r == BadRequest(BodyError(request.body).value)
    ensures (TokenGenerator.TokenRole(cfg, TokenGenerator.DateKey(isoNow), token.GetOr("")).Some? && request.JsonBody?
      && BodyError(request.body).None? && !BlocksValid(request.body.blocks.items)) ==>
      (r.BadRequest?
       && exists i :: (0 <= i < |request.body.blocks.items| && Some(r.error) == BlockError(request.body.blocks.items[i], i)
         && forall j :: 0 <= j < i ==> BlockError(request.body.blocks.items[j], j).None?))
    ensures (TokenGenerator.TokenRole(cfg, TokenGenerator.DateKey(isoNow), token.GetOr("")).Some? && request.JsonBody?
      && BodyError(request.body).None? && BlocksValid(request.body.blocks.items)) ==>
      r == Create(TokenGenerator.TokenRole(cfg, TokenGenerator.DateKey(isoNow), token.GetOr("")).value, Payload(request.body))
    ensures r.Create? ==>
      (request.JsonBody? && BodyError(request.body).None? && BlocksValid(request.body.blocks.items)
       && r.role == TokenGenerator.TokenRole(cfg, TokenGenerator.DateKey(isoNow), token.GetOr("")).value
       && r.payload == Payload(request.body))
  {
    var role := TokenGenerator.GetTokenRole(cfg, isoNow, token.GetOr(""));
    if role.None? {
      return PostUnauthorized;
    }
    if request.InvalidJson? {
      return InternalError(500, "Internal server error");
    }
    var body := request.body;
    var bodyError := BodyError(body);
    if bodyError.Some? {
      return BadRequest(bodyError.value);
    }
    var blockError := ValidateBlocks(body.blocks.items);
    if blockError.Some? {
      return BadRequest(blockError.value);
    }
    return Create(role.value, Payload(body));
  }
}
