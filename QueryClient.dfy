/**
 * The client-side query cache settings (src/lib/queryClient.ts): the retry
 * back-off, the hierarchical cache keys, the classification of fetch
 * errors into user messages, the optimistic view-count update and the
 * `enabled` rules of the query options. A cache key is a list of parts;
 * a key given to invalidate or remove matches every key it is a prefix of.
 */
module QueryClient {
  import opened Wrappers
  import opened Text

  // ---- retry back-off ----

  function Pow2(n: nat): (p: nat)
    ensures p >= 1
  {
    if n == 0 then 1 else 2 * Pow2(n - 1)
  }

  const MaxRetryDelay: int := 30000

  /** `retryDelay(attemptIndex)`: `Math.min(1000 * 2 ** attemptIndex, 30000)`. */
  function RetryDelay(attemptIndex: nat): (ms: int)
    ensures ms <= MaxRetryDelay
    ensures ms == 1000 * Pow2(attemptIndex) || ms == MaxRetryDelay
  {
    if 1000 * Pow2(attemptIndex) < MaxRetryDelay then 1000 * Pow2(attemptIndex) else MaxRetryDelay
  }

  /** The first retry waits one second, each later one twice as long until the 30-second cap. */
  lemma RetryDelayDoubles(a: nat)
    ensures RetryDelay(0) == 1000
    ensures RetryDelay(a + 1) == if 2 * RetryDelay(a) < MaxRetryDelay then 2 * RetryDelay(a) else MaxRetryDelay
  {
  }

  /** The delay never decreases from one attempt to a later one. */
  lemma {:induction false} RetryDelayMonotone(a: nat, b: nat)
    requires a <= b
    ensures 1000 <= RetryDelay(a) <= RetryDelay(b)
    decreases b - a
  {
    if a < b {
      RetryDelayMonotone(a + 1, b);
      RetryDelayDoubles(a);
    }
  }

  /** From the sixth attempt on (index 5, 32 seconds uncapped) the delay is the cap. */
  lemma {:induction false} RetryDelayCapped(a: nat)
    requires a >= 5
    ensures RetryDelay(a) == MaxRetryDelay
    decreases a
  {
    if a > 5 {
      RetryDelayCapped(a - 1);
      RetryDelayDoubles(a - 1);
    } else {
      assert Pow2(5) == 32 by {
        assert Pow2(1) == 2 && Pow2(2) == 4 && Pow2(3) == 8 && Pow2(4) == 16;
      }
    }
  }

  // ---- cache keys ----

  /** One element of a cache key: a name, a numeric id, or a filter object (`undefined` is `Filters(None)`). */
  datatype KeyPart = Name(name: string) | Id(id: int) | Filters(filters: Option<map<string, string>>)

  type QueryKey = seq<KeyPart>

  /** `invalidateQueries`/`removeQueries` with `queryKey: prefix` reach `key`. */
  predicate Reaches(prefix: QueryKey, key: QueryKey) {
    prefix <= key
  }

  /** The three entity families of `queryKeys`. */
  datatype Scope = Brands | Products | Magazines

  function ScopeName(scope: Scope): string {
    match scope
    case Brands => "brands"
    case Products => "products"
    case Magazines => "magazines"
  }

  function All(scope: Scope): QueryKey { [Name(ScopeName(scope))] }
  function Lists(scope: Scope): QueryKey { All(scope) + [Name("list")] }
  function List(scope: Scope, filters: Option<map<string, string>>): QueryKey { Lists(scope) + [Filters(filters)] }
  function Details(scope: Scope): QueryKey { All(scope) + [Name("detail")] }
  function Detail(scope: Scope, id: int): QueryKey { Details(scope) + [Id(id)] }

  /** `byBrand(brandId)`, which products and magazines have. */
  function ByBrand(scope: Scope, brandId: int): QueryKey
    requires scope != Brands
  {
    All(scope) + [Name("brand"), Id(brandId)]
  }

  /** `count()` of brands and products, and `count(filters)` of magazines. */
  function Count(scope: Scope, filters: Option<map<string, string>>): QueryKey {
    if scope == Magazines then All(scope) + [Name("count"), Filters(filters)] else All(scope) + [Name("count")]
  }

  function AdminLists(): QueryKey { All(Magazines) + [Name("admin"), Name("list")] }
  function AdminList(token: string, filters: Option<map<string, string>>): QueryKey {
    AdminLists() + [Name(token), Filters(filters)]
  }
  function PublishedCards(filters: Option<map<string, string>>): QueryKey {
    All(Magazines) + [Name("published"), Name("cards"), Filters(filters)]
  }
  function PublishedCard(id: int): QueryKey { All(Magazines) + [Name("published"), Name("card"), Id(id)] }
  function StatsKey(): QueryKey { All(Magazines) + [Name("stats")] }
  function Views(magazineId: int): QueryKey { All(Magazines) + [Name("views"), Id(magazineId)] }
  function UploadAll(): QueryKey { [Name("upload")] }

  /** Every key of a family extends its `all`, `list` extends `lists` and `detail` extends `details`. */
  lemma KeyHierarchy(scope: Scope, filters: Option<map<string, string>>, id: int, token: string)
    ensures Reaches(All(scope), Lists(scope)) && Reaches(Lists(scope), List(scope, filters))
    ensures Reaches(All(scope), Details(scope)) && Reaches(Details(scope), Detail(scope, id))
    ensures Reaches(All(scope), Count(scope, filters))
    ensures scope != Brands ==> Reaches(All(scope), ByBrand(scope, id))
    ensures Reaches(All(Magazines), AdminLists()) && Reaches(AdminLists(), AdminList(token, filters))
    ensures Reaches(All(Magazines), PublishedCards(filters)) && Reaches(All(Magazines), PublishedCard(id))
    ensures Reaches(All(Magazines), StatsKey()) && Reaches(All(Magazines), Views(id))
  {
  }

  /** Invalidating the lists leaves the details alone and the other way round, and families never reach each other. */
  lemma KeysSeparate(s1: Scope, s2: Scope, filters: Option<map<string, string>>, id: int)
    ensures !Reaches(Lists(s1), Detail(s2, id)) && !Reaches(Details(s1), List(s2, filters))
    ensures s1 != s2 ==> !Reaches(All(s1), List(s2, filters)) && !Reaches(All(s1), Detail(s2, id))
    ensures !Reaches(Details(Magazines), PublishedCard(id)) && !Reaches(PublishedCards(filters), PublishedCard(id))
  {
    assert Lists(s1)[1] != Detail(s2, id)[1];
    assert Details(s1)[1] != List(s2, filters)[1];
    assert PublishedCards(filters)[2] != PublishedCard(id)[2];
    assert Details(Magazines)[1] != PublishedCard(id)[1];
    if s1 != s2 {
      assert ScopeName(s1) != ScopeName(s2);
      assert All(s1)[0] != List(s2, filters)[0];
      assert All(s1)[0] != Detail(s2, id)[0];
    }
  }

  /** Different ids give different detail keys, so removing one detail keeps the others. */
  lemma DetailKeysDistinct(scope: Scope, a: int, b: int)
    requires a != b
    ensures !Reaches(Detail(scope, a), Detail(scope, b))
    ensures !Reaches(PublishedCard(a), PublishedCard(b))
  {
    assert Detail(scope, a)[2] != Detail(scope, b)[2];
    assert PublishedCard(a)[3] != PublishedCard(b)[3];
  }

  // ---- error messages ----

  /** What a query throws: an `Error` with its message, or any other value. */
  datatype Thrown = ErrorObject(message: string) | OtherValue

  const NetworkMessage := "네트워크 연결을 확인해주세요."
  const NotFoundMessage := "요청하신 데이터를 찾을 수 없습니다."
  const UnauthorizedMessage := "인증이 필요합니다."
  const ForbiddenMessage := "접근 권한이 없습니다."
  const ServerMessage := "서버 오류가 발생했습니다."
  const UnknownMessage := "알 수 없는 오류가 발생했습니다."

  /** `getErrorMessage(error)`: the first of the five markers the message contains decides; otherwise the default. */
  function ErrorMessage(error: Thrown): (m: string)
    ensures m in [NetworkMessage, NotFoundMessage, UnauthorizedMessage, ForbiddenMessage, ServerMessage, UnknownMessage]
    ensures error.OtherValue? ==> m == UnknownMessage
  {
    match error
    case OtherValue => UnknownMessage
    case ErrorObject(s) =>
      if Includes(s, "Failed to fetch") then NetworkMessage
      else if Includes(s, "404") then NotFoundMessage
      else if Includes(s, "401") then UnauthorizedMessage
      else if Includes(s, "403") then ForbiddenMessage
      else if Includes(s, "500") then ServerMessage
      else UnknownMessage
  }

  /**
   * Each message is given exactly when its marker is in the text and no
   * earlier marker is: network, then 404, 401, 403 and 500.
   */
  lemma ErrorMessageClassifies(s: string)
    ensures var m := ErrorMessage(ErrorObject(s));
      && (m == NetworkMessage <==> Includes(s, "Failed to fetch"))
      && (m == NotFoundMessage <==> !Includes(s, "Failed to fetch") && Includes(s, "404"))
      && (m == UnauthorizedMessage <==> !Includes(s, "Failed to fetch") && !Includes(s, "404") && Includes(s, "401"))
      && (m == ForbiddenMessage <==> !Includes(s, "Failed to fetch") && !Includes(s, "404") && !Includes(s, "401") && Includes(s, "403"))
      && (m == ServerMessage <==> !Includes(s, "Failed to fetch") && !Includes(s, "404") && !Includes(s, "401") && !Includes(s, "403") && Includes(s, "500"))
      && (m == UnknownMessage <==> !Includes(s, "Failed to fetch") && !Includes(s, "404") && !Includes(s, "401") && !Includes(s, "403") && !Includes(s, "500"))
  {
    assert NetworkMessage[0] != NotFoundMessage[0] && NetworkMessage[0] != UnauthorizedMessage[0];
    assert NetworkMessage[0] != ForbiddenMessage[0] && NetworkMessage[0] != ServerMessage[0];
    assert NetworkMessage[0] != UnknownMessage[0] && NotFoundMessage[0] != UnauthorizedMessage[0];
    assert NotFoundMessage[0] != ForbiddenMessage[0] && NotFoundMessage[0] != ServerMessage[0];
    assert NotFoundMessage[0] != UnknownMessage[0] && UnauthorizedMessage[0] != ForbiddenMessage[0];
    assert UnauthorizedMessage[0] != ServerMessage[0] && UnauthorizedMessage[0] != UnknownMessage[0];
    assert ForbiddenMessage[0] != ServerMessage[0] && ForbiddenMessage[0] != UnknownMessage[0];
    assert ServerMessage[0] != UnknownMessage[0];
  }

  /** A status code written into a message is recognised whatever surrounds it, unless an earlier marker is there too. */
  lemma StatusInMessage(before: string, after: string)
    ensures var s := before + "404" + after; !Includes(s, "Failed to fetch") ==> ErrorMessage(ErrorObject(s)) == NotFoundMessage
    ensures var s := before + "Failed to fetch" + after; ErrorMessage(ErrorObject(s)) == NetworkMessage
  {
    IncludesInfix(before, "404", after);
    IncludesInfix(before, "Failed to fetch", after);
  }

  // ---- optimistic view count ----

  /** The magazine object inside a cached card or detail response; `fields` stands for every other property. */
  datatype CachedMagazine = CachedMagazine(viewCount: Option<int>, fields: map<string, string>)

  /** A cached card or detail response; `fields` stands for every property besides `magazine`. */
  datatype CachedResponse = CachedResponse(magazine: Option<CachedMagazine>, fields: map<string, string>)

  function ViewCountOf(data: CachedResponse): int {
    if data.magazine.Some? then data.magazine.value.viewCount.GetOr(0) else 0
  }

  /**
   * The updater given to `setQueryData`: present data gets its view count
   * raised by `increment` from `viewCount || 0`, everything else kept;
   * absent data stays absent.
   */
  function BumpViewCount(data: Option<CachedResponse>, increment: int): (r: Option<CachedResponse>)
    ensures r.None? <==> data.None?
    ensures data.Some? ==>
      (&& r.value.fields == data.value.fields
       && r.value.magazine.Some?
       && r.value.magazine.value.viewCount == Some(ViewCountOf(data.value) + increment)
       && r.value.magazine.value.fields == (if data.value.magazine.Some? then data.value.magazine.value.fields else map[]))
  {
    match data
    case None => None
    case Some(d) =>
      var inner := if d.magazine.Some? then d.magazine.value.fields else map[];
      Some(CachedResponse(Some(CachedMagazine(Some(ViewCountOf(d) + increment), inner)), d.fields))
  }

  /** `setQueryData(key, updater)`: an updater result of `undefined` leaves the cache as it was. */
  function SetWith(cache: map<QueryKey, CachedResponse>, key: QueryKey, increment: int): (r: map<QueryKey, CachedResponse>)
    ensures r.Keys == cache.Keys
    ensures forall k :: k in cache && k != key ==> r[k] == cache[k]
    ensures key in cache ==> Some(r[key]) == BumpViewCount(Some(cache[key]), increment)
  {
    if key in cache then cache[key := BumpViewCount(Some(cache[key]), increment).value] else cache
  }

  /** `cacheUtils.magazines.updateViewCount(queryClient, id, increment)`: the card entry, then the detail entry. */
  function UpdateViewCount(cache: map<QueryKey, CachedResponse>, id: int, increment: int): (r: map<QueryKey, CachedResponse>)
    ensures r.Keys == cache.Keys
  {
    SetWith(SetWith(cache, PublishedCard(id), increment), Detail(Magazines, id), increment)
  }

  /** Both entries of the magazine are raised, absent ones stay absent, and no other entry changes. */
  lemma UpdateViewCountEffect(cache: map<QueryKey, CachedResponse>, id: int, increment: int)
    ensures UpdateViewCount(cache, id, increment).Keys == cache.Keys
    ensures forall k :: k in cache && k != PublishedCard(id) && k != Detail(Magazines, id) ==> UpdateViewCount(cache, id, increment)[k] == cache[k]
    ensures PublishedCard(id) in cache ==> ViewCountOf(UpdateViewCount(cache, id, increment)[PublishedCard(id)]) == ViewCountOf(cache[PublishedCard(id)]) + increment
    ensures Detail(Magazines, id) in cache ==> ViewCountOf(UpdateViewCount(cache, id, increment)[Detail(Magazines, id)]) == ViewCountOf(cache[Detail(Magazines, id)]) + increment
  {
    assert PublishedCard(id) != Detail(Magazines, id) by {
      assert |PublishedCard(id)| != |Detail(Magazines, id)|;
    }
  }

  /** Two updates add up: raising by `a` and then by `b` is raising by `a + b`. */
  lemma {:induction false} BumpViewCountAdds(data: Option<CachedResponse>, a: int, b: int)
    ensures BumpViewCount(BumpViewCount(data, a), b) == BumpViewCount(data, a + b)
  {
  }

  // ---- query options ----

  datatype QueryOptions = QueryOptions(staleTime: int, gcTime: int, enabled: bool)

  /** `createQueryOptions.magazineCard(id)`: ten minutes fresh, half an hour kept, and only for a positive id. */
  function MagazineCardOptions(id: Option<int>): (o: QueryOptions)
    ensures o.enabled <==> id.Some? && id.value > 0
    ensures o.staleTime == 600000 && o.gcTime == 1800000
  {
    QueryOptions(1000 * 60 * 10, 1000 * 60 * 30, TruthyNumber(id) && id.value > 0)
  }

  /** `createQueryOptions.magazineDetail(id)`. */
  function MagazineDetailOptions(id: Option<int>): (o: QueryOptions)
    ensures o.enabled <==> id.Some? && id.value > 0
    ensures o.staleTime == 120000 && o.gcTime == 600000
  {
    QueryOptions(1000 * 60 * 2, 1000 * 60 * 10, TruthyNumber(id) && id.value > 0)
  }

  /** `createQueryOptions.adminList(token)`: only with a non-empty token. */
  function AdminListOptions(token: Option<string>): (o: QueryOptions)
    ensures o.enabled <==> token.Some? && token.value != ""
    ensures o.staleTime == 30000 && o.gcTime == 300000
  {
    QueryOptions(1000 * 30, 1000 * 60 * 5, TruthyString(token))
  }
}
