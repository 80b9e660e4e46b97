/**
 * The admin data hooks (src/lib/queries/admin.ts): the admin cache keys,
 * the search parameters of the list and count requests, and the cache
 * writes of the create, update and delete mutations, including the
 * optimistic removal of a deleted magazine from every cached list page and
 * the rollback of that removal when the request fails. The cache is the
 * `AdminCache` object; its `stale` set records which entries an
 * invalidation marked for refetching.
 */
module AdminQueries {
  import opened Wrappers
  import opened Text
  import opened QueryClient

  // ---- keys ----

  datatype AdminScope = AdminMagazines | AdminBrands

  function AdminAll(scope: AdminScope): QueryKey {
    [Name("admin"), Name(if scope == AdminMagazines then "magazines" else "brands")]
  }
  function AdminListsKey(scope: AdminScope): QueryKey { AdminAll(scope) + [Name("list")] }
  function AdminListKey(scope: AdminScope, filters: map<string, string>): QueryKey {
    AdminListsKey(scope) + [Filters(Some(filters))]
  }
  function AdminDetailsKey(scope: AdminScope): QueryKey { AdminAll(scope) + [Name("detail")] }
  function AdminDetailKey(scope: AdminScope, id: int): QueryKey { AdminDetailsKey(scope) + [Id(id)] }
  function AdminStatsKey(): QueryKey { AdminAll(AdminMagazines) + [Name("stats")] }
  /** The key of `useAdminMagazineCount`: `[...stats(), 'count', params]`. */
  function AdminCountKey(filters: map<string, string>): QueryKey { AdminStatsKey() + [Name("count"), Filters(Some(filters))] }

  /** `list` extends `lists`, `detail` extends `details`, the count key extends `stats`, and all extend `all`. */
  lemma AdminKeyHierarchy(scope: AdminScope, filters: map<string, string>, id: int)
    ensures Reaches(AdminAll(scope), AdminListsKey(scope)) && Reaches(AdminListsKey(scope), AdminListKey(scope, filters))
    ensures Reaches(AdminAll(scope), AdminDetailsKey(scope)) && Reaches(AdminDetailsKey(scope), AdminDetailKey(scope, id))
    ensures Reaches(AdminAll(AdminMagazines), AdminStatsKey()) && Reaches(AdminStatsKey(), AdminCountKey(filters))
  {
  }

  /** The lists, the details and the statistics of the admin magazines are three separate branches. */
  lemma AdminKeysSeparate(filters: map<string, string>, id: int)
    ensures !Reaches(AdminListsKey(AdminMagazines), AdminDetailKey(AdminMagazines, id))
    ensures !Reaches(AdminListsKey(AdminMagazines), AdminCountKey(filters))
    ensures !Reaches(AdminStatsKey(), AdminListKey(AdminMagazines, filters))
    ensures !Reaches(AdminDetailsKey(AdminMagazines), AdminListKey(AdminMagazines, filters))
  {
    assert AdminListsKey(AdminMagazines)[2] != AdminDetailKey(AdminMagazines, id)[2];
    assert AdminListsKey(AdminMagazines)[2] != AdminCountKey(filters)[2];
    assert AdminStatsKey()[2] != AdminListKey(AdminMagazines, filters)[2];
    assert AdminDetailsKey(AdminMagazines)[2] != AdminListKey(AdminMagazines, filters)[2];
  }

  /** No admin key is reached by a key of the public `queryKeys` families, nor the other way round. */
  lemma AdminKeysApart(scope: AdminScope, s: Scope)
    ensures !Reaches(All(s), AdminAll(scope)) && !Reaches(AdminAll(scope), All(s))
  {
    assert All(s)[0] != AdminAll(scope)[0];
  }

  // ---- token and search parameters ----

  /** `getAdminToken()`: the stored token, or `''` when none is stored (or on the server). */
  function AdminToken(inBrowser: bool, stored: Option<string>): (token: string)
    ensures !inBrowser || !TruthyString(stored) ==> token == ""
    ensures inBrowser && TruthyString(stored) ==> token == stored.value
  {
    if inBrowser then OrDefault(stored, "") else ""
  }

  datatype ListParams = ListParams(page: Option<int>, limit: Option<int>, status: Option<string>, category: Option<string>)

  /** The value of the first parameter called `name`. */
  function Param(params: seq<(string, string)>, name: string): (v: Option<string>)
    ensures v.Some? ==> (name, v.value) in params
    ensures v.None? ==> forall p :: p in params ==> p.0 != name
  {
    if |params| == 0 then None
    else if params[0].0 == name then Some(params[0].1)
    else Param(params[1..], name)
  }

  function NumberParam(name: string, n: Option<int>): seq<(string, string)> {
    if TruthyNumber(n) then [(name, IntToString(n.value))] else []
  }

  function StringParam(name: string, s: Option<string>): seq<(string, string)> {
    if TruthyString(s) then [(name, s.value)] else []
  }

  /** `new URLSearchParams({ token })` followed by the conditional `set`s of `getMagazines`. */
  function ListSearch(token: string, params: ListParams): (search: seq<(string, string)>)
    ensures |search| >= 1 && search[0] == ("token", token)
  {
    [("token", token)] + (NumberParam("page", params.page) + (NumberParam("limit", params.limit)
      + (StringParam("status", params.status) + StringParam("category", params.category))))
  }

  /** `new URLSearchParams({ token, count: 'true' })` followed by the conditional `set`s of `getMagazineCount`. */
  function CountSearch(token: string, status: Option<string>, category: Option<string>): (search: seq<(string, string)>)
    ensures |search| >= 2 && search[0] == ("token", token) && search[1] == ("count", "true")
  {
    [("token", token), ("count", "true")] + (StringParam("status", status) + StringParam("category", category))
  }

  /** The lookup in a list that starts with a block of at most one parameter. */
  lemma ParamBlock(block: seq<(string, string)>, rest: seq<(string, string)>, name: string)
    requires |block| <= 1
    ensures Param(block + rest, name) == if |block| == 1 && block[0].0 == name then Some(block[0].1) else Param(rest, name)
  {
    if |block| == 0 {
      assert block + rest == rest;
    } else {
      assert (block + rest)[0] == block[0] && (block + rest)[1..] == rest;
    }
  }

  /** The list request always carries the token, and never `count`. */
  lemma ListSearchToken(token: string, params: ListParams)
    ensures Param(ListSearch(token, params), "token") == Some(token)
    ensures Param(ListSearch(token, params), "count").None?
  {
  }

  /** `page` is carried exactly when it is truthy, with its decimal text. */
  lemma ListSearchPage(token: string, params: ListParams)
    ensures Param(ListSearch(token, params), "page") == if TruthyNumber(params.page) then Some(IntToString(params.page.value)) else None
  {
    var rest := NumberParam("limit", params.limit) + (StringParam("status", params.status) + StringParam("category", params.category));
    ParamBlock([("token", token)], NumberParam("page", params.page) + rest, "page");
    ParamBlock(NumberParam("page", params.page), rest, "page");
  }

  /** `limit` is carried exactly when it is truthy, with its decimal text. */
  lemma ListSearchLimit(token: string, params: ListParams)
    ensures Param(ListSearch(token, params), "limit") == if TruthyNumber(params.limit) then Some(IntToString(params.limit.value)) else None
  {
    var rest := StringParam("status", params.status) + StringParam("category", params.category);
    var afterPage := NumberParam("limit", params.limit) + rest;
    ParamBlock([("token", token)], NumberParam("page", params.page) + afterPage, "limit");
    ParamBlock(NumberParam("page", params.page), afterPage, "limit");
    ParamBlock(NumberParam("limit", params.limit), rest, "limit");
  }

  /** `status` is carried exactly when it is non-empty. */
  lemma ListSearchStatus(token: string, params: ListParams)
    ensures Param(ListSearch(token, params), "status") == if TruthyString(params.status) then Some(params.status.value) else None
  {
    var rest := StringParam("status", params.status) + StringParam("category", params.category);
    var afterPage := NumberParam("limit", params.limit) + rest;
    ParamBlock([("token", token)], NumberParam("page", params.page) + afterPage, "status");
    ParamBlock(NumberParam("page", params.page), afterPage, "status");
    ParamBlock(NumberParam("limit", params.limit), rest, "status");
    ParamBlock(StringParam("status", params.status), StringParam("category", params.category), "status");
  }

  /** `category` is carried exactly when it is non-empty. */
  lemma ListSearchCategory(token: string, params: ListParams)
    ensures Param(ListSearch(token, params), "category") == if TruthyString(params.category) then Some(params.category.value) else None
  {
    var rest := StringParam("status", params.status) + StringParam("category", params.category);
    var afterPage := NumberParam("limit", params.limit) + rest;
    ParamBlock([("token", token)], NumberParam("page", params.page) + afterPage, "category");
    ParamBlock(NumberParam("page", params.page), afterPage, "category");
    ParamBlock(NumberParam("limit", params.limit), rest, "category");
    ParamBlock(StringParam("status", params.status), StringParam("category", params.category), "category");
    ParamBlock(StringParam("category", params.category), [], "category");
    assert StringParam("category", params.category) + [] == StringParam("category", params.category);
  }

  /** The count request always carries `count=true` and the token. */
  lemma CountSearchParams(token: string, status: Option<string>, category: Option<string>)
    ensures Param(CountSearch(token, status, category), "count") == Some("true")
    ensures Param(CountSearch(token, status, category), "token") == Some(token)
  {
  }

  /** `useAdminMagazine(id)` runs only for a positive id. */
  function AdminMagazineEnabled(id: int): (enabled: bool)
    ensures enabled <==> id > 0
  {
    id != 0 && id > 0
  }

  // ---- cache values and the optimistic delete ----

  datatype Magazine = Magazine(id: int, title: string)

  /** A cached response: a list page (`data` an array, or missing), or any other record. */
  datatype CacheValue =
    | Page(data: Option<seq<Magazine>>, fields: map<string, string>)
    | Record(fields: map<string, string>)

  /** `data.filter(m => m.id !== id)`. */
  function Without(items: seq<Magazine>, id: int): (r: seq<Magazine>)
    ensures |r| <= |items|
    ensures forall m :: m in r <==> m in items && m.id != id
    decreases |items|
  {
    if |items| == 0 then []
    else
      var rest := Without(items[1..], id);
      assert forall m :: m in items <==> m == items[0] || m in items[1..];
      if items[0].id != id then [items[0]] + rest else rest
  }

  /** `r` keeps some of the items of `items`, in their order. */
  predicate Subsequence(r: seq<Magazine>, items: seq<Magazine>)
    decreases |items|
  {
    |r| <= |items| && (r == [] || (|items| > 0 && ((r[0] == items[0] && Subsequence(r[1..], items[1..])) || Subsequence(r, items[1..]))))
  }

  /** The filter keeps the order of the remaining items and removes only the deleted id. */
  lemma {:induction false} WithoutKeepsOrder(items: seq<Magazine>, id: int)
    ensures Subsequence(Without(items, id), items)
    ensures |Without(items, id)| == |items| - Occurrences(items, id)
    decreases |items|
  {
    if |items| > 0 {
      WithoutKeepsOrder(items[1..], id);
      var rest := Without(items[1..], id);
      if items[0].id != id {
        assert ([items[0]] + rest)[1..] == rest;
      }
    }
  }

  function Occurrences(items: seq<Magazine>, id: int): nat
    decreases |items|
  {
    if |items| == 0 then 0 else (if items[0].id == id then 1 else 0) + Occurrences(items[1..], id)
  }

  /** Removing twice is removing once. */
  lemma {:induction false} WithoutIdempotent(items: seq<Magazine>, id: int)
    ensures Without(Without(items, id), id) == Without(items, id)
    decreases |items|
  {
    if |items| > 0 {
      WithoutIdempotent(items[1..], id);
    }
  }

  /** The updater of `setQueriesData`: a value without `data` is returned as it was. */
  function DeleteUpdater(value: CacheValue, id: int): (r: CacheValue)
    ensures r.Page? <==> value.Page?
    ensures value.Page? && value.data.Some? ==> r == Page(Some(Without(value.data.value, id)), value.fields)
    ensures !(value.Page? && value.data.Some?) ==> r == value
  {
    match value
    case Page(Some(items), fields) => Page(Some(Without(items, id)), fields)
    case _ => value
  }

  /** Every entry under `prefix` (`getQueriesData({ queryKey: prefix })`). */
  function Snapshot(entries: map<QueryKey, CacheValue>, prefix: QueryKey): (s: map<QueryKey, CacheValue>)
    ensures forall k :: k in s <==> k in entries && Reaches(prefix, k)
    ensures forall k :: k in s ==> s[k] == entries[k]
  {
    map k | k in entries && Reaches(prefix, k) :: entries[k]
  }

  /** `setQueriesData({ queryKey: prefix }, updater)` with the delete updater. */
  function RemoveEverywhere(entries: map<QueryKey, CacheValue>, prefix: QueryKey, id: int): (r: map<QueryKey, CacheValue>)
    ensures r.Keys == entries.Keys
    ensures forall k :: k in entries && !Reaches(prefix, k) ==> r[k] == entries[k]
    ensures forall k :: k in entries && Reaches(prefix, k) ==> r[k] == DeleteUpdater(entries[k], id)
  {
    map k | k in entries :: if Reaches(prefix, k) then DeleteUpdater(entries[k], id) else entries[k]
  }

  /** `snapshot.forEach(([key, data]) => setQueryData(key, data))`. */
  function Restore(entries: map<QueryKey, CacheValue>, snapshot: map<QueryKey, CacheValue>): (r: map<QueryKey, CacheValue>)
    ensures r.Keys == entries.Keys + snapshot.Keys
    ensures forall k :: k in snapshot ==> r[k] == snapshot[k]
    ensures forall k :: k in entries && k !in snapshot ==> r[k] == entries[k]
  {
    entries + snapshot
  }

  /** Restoring the snapshot taken before the optimistic removal gives back the cache exactly as it was. */
  lemma RollbackRestores(entries: map<QueryKey, CacheValue>, prefix: QueryKey, id: int)
    ensures Restore(RemoveEverywhere(entries, prefix, id), Snapshot(entries, prefix)) == entries
  {
    var r := Restore(RemoveEverywhere(entries, prefix, id), Snapshot(entries, prefix));
    assert r.Keys == entries.Keys;
    forall k | k in entries
      ensures r[k] == entries[k]
    {
    }
  }

  /** After the optimistic removal no cached list page under `prefix` shows the deleted magazine. */
  lemma RemovedEverywhere(entries: map<QueryKey, CacheValue>, prefix: QueryKey, id: int, k: QueryKey)
    requires k in entries && Reaches(prefix, k)
    ensures var v := RemoveEverywhere(entries, prefix, id)[k];
      v.Page? && v.data.Some? ==> forall m :: m in v.data.value ==> m.id != id
  {
  }

  /** The entries no longer under `prefix` (`removeQueries({ queryKey: prefix })`). */
  function RemoveUnder(entries: map<QueryKey, CacheValue>, prefix: QueryKey): (r: map<QueryKey, CacheValue>)
    ensures forall k :: k in r <==> k in entries && !Reaches(prefix, k)
    ensures forall k :: k in r ==> r[k] == entries[k]
  {
    map k | k in entries && !Reaches(prefix, k) :: entries[k]
  }

  /** The cached keys under `prefix` (`invalidateQueries({ queryKey: prefix })` marks them stale). */
  function KeysUnder(entries: map<QueryKey, CacheValue>, prefix: QueryKey): (s: set<QueryKey>)
    ensures forall k :: k in s <==> k in entries && Reaches(prefix, k)
  {
    set k | k in entries && Reaches(prefix, k)
  }

  /** A mutation response: `success` and the `data` it carries, if any. */
  datatype MutationResponse = MutationResponse(success: bool, data: Option<CacheValue>)

  class AdminCache {
    var entries: map<QueryKey, CacheValue>
    var stale: set<QueryKey>

    constructor (entries: map<QueryKey, CacheValue>)
      ensures this.entries == entries && stale == {}
    {
      this.entries := entries;
      stale := {};
    }

    method Invalidate(prefix: QueryKey)
      modifies this
      ensures entries == old(entries)
      ensures stale == old(stale) + KeysUnder(entries, prefix)
    {
      stale := stale + KeysUnder(entries, prefix);
    }

    method Remove(prefix: QueryKey)
      modifies this
      ensures entries == RemoveUnder(old(entries), prefix)
      ensures stale == old(stale)
    {
      entries := RemoveUnder(entries, prefix);
    }

    /** `createMutation.onSuccess`: a successful response with data marks the lists and the statistics stale. */
    method CreateSucceeded(response: MutationResponse)
      modifies this
      ensures entries == old(entries)
      ensures response.success && response.data.Some? ==>
        stale == old(stale) + KeysUnder(entries, AdminListsKey(AdminMagazines)) + KeysUnder(entries, AdminStatsKey())
      ensures !(response.success && response.data.Some?) ==> stale == old(stale)
    {
      if response.success && response.data.Some? {
        Invalidate(AdminListsKey(AdminMagazines));
        Invalidate(AdminStatsKey());
      }
    }

    /** `updateMutation.onSuccess`: the detail entry becomes the whole response, and the lists are marked stale. */
    method UpdateSucceeded(id: int, response: MutationResponse, responseValue: CacheValue)
      modifies this
      ensures response.success && response.data.Some? ==>
        (&& entries == old(entries)[AdminDetailKey(AdminMagazines, id) := responseValue]
         && stale == old(stale) + KeysUnder(entries, AdminListsKey(AdminMagazines)))
      ensures !(response.success && response.data.Some?) ==> entries == old(entries) && stale == old(stale)
    {
      if response.success && response.data.Some? {
        entries := entries[AdminDetailKey(AdminMagazines, id) := responseValue];
        Invalidate(AdminListsKey(AdminMagazines));
      }
    }

    /** `deleteMutation.onMutate`: snapshot the list entries, then remove the magazine from each of them. */
    method DeleteStarted(id: int) returns (snapshot: map<QueryKey, CacheValue>)
      modifies this
      ensures snapshot == Snapshot(old(entries), AdminListsKey(AdminMagazines))
      ensures entries == RemoveEverywhere(old(entries), AdminListsKey(AdminMagazines), id)
      ensures stale == old(stale)
    {
      snapshot := Snapshot(entries, AdminListsKey(AdminMagazines));
      entries := RemoveEverywhere(entries, AdminListsKey(AdminMagazines), id);
    }

    /** `deleteMutation.onError`: every snapshot entry is written back. */
    method DeleteFailed(snapshot: Option<map<QueryKey, CacheValue>>)
      modifies this
      ensures entries == (if snapshot.Some? then Restore(old(entries), snapshot.value) else old(entries))
      ensures stale == old(stale)
    {
      if snapshot.Some? {
        entries := Restore(entries, snapshot.value);
      }
    }

    /** `deleteMutation.onSettled`: lists stale, the deleted magazine's detail dropped, statistics stale. */
    method DeleteSettled(id: int)
      modifies this
      ensures entries == RemoveUnder(old(entries), AdminDetailKey(AdminMagazines, id))
      ensures stale == old(stale) + KeysUnder(old(entries), AdminListsKey(AdminMagazines)) + KeysUnder(entries, AdminStatsKey())
    {
      Invalidate(AdminListsKey(AdminMagazines));
      Remove(AdminDetailKey(AdminMagazines, id));
      Invalidate(AdminStatsKey());
    }

    /** `adminCacheUtils.clearMagazinesCache`: nothing under `['admin', 'magazines']` is left. */
    method ClearMagazines()
      modifies this
      ensures entries == RemoveUnder(old(entries), AdminAll(AdminMagazines))
      ensures stale == old(stale)
    {
      Remove(AdminAll(AdminMagazines));
    }
  }

  /** A failed delete leaves the cache entries exactly as they were before it started. */
  method FailedDelete(entries: map<QueryKey, CacheValue>, id: int) returns (after: map<QueryKey, CacheValue>)
    ensures after == entries
  {
    var cache := new AdminCache(entries);
    var snapshot := cache.DeleteStarted(id);
    cache.DeleteFailed(Some(snapshot));
    RollbackRestores(entries, AdminListsKey(AdminMagazines), id);
    after := cache.entries;
  }
}
