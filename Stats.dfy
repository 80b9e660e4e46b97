/**
 * The admin statistics endpoint (src/app/api/control/stats/route.ts): the
 * daily view counts are summed per week and per month in two maps, the map
 * entries are pushed to lists, and the lists are sorted by key. The week a
 * date falls in is computed with `Date` methods in the source; here it is
 * the parameter `weekOf`. Keys are compared character by character, which
 * is what `localeCompare` does for the digit-and-dash keys produced here.
 */
module Stats {
  import opened Wrappers
  import opened Text
  import TokenGenerator

  datatype DailyView = DailyView(date: string, count: int)

  /** `date.substring(0, 7)`: `YYYY-MM` of an ISO date. */
  function MonthKey(date: string): (k: string)
    ensures |date| >= 7 ==> k == date[..7]
    ensures |date| < 7 ==> k == date
  {
    if |date| >= 7 then date[..7] else date
  }

  // ---- the sums the maps hold ----

  /** The key of a date under the week or month keying. */
  function KeyOf(keyOf: string -> string, date: string): string {
    keyOf(date)
  }

  /** The sum of the counts of the days whose key is `key`. */
  function SumFor(days: seq<DailyView>, keyOf: string -> string, key: string): int
    decreases |days|
  {
    if |days| == 0 then 0
    else SumFor(days[..|days| - 1], keyOf, key) + (if KeyOf(keyOf, days[|days| - 1].date) == key then days[|days| - 1].count else 0)
  }

  /** The sum of all the counts. */
  function Total(days: seq<DailyView>): int
    decreases |days|
  {
    if |days| == 0 then 0 else Total(days[..|days| - 1]) + days[|days| - 1].count
  }

  predicate HasKey(days: seq<DailyView>, keyOf: string -> string, key: string) {
    exists j :: 0 <= j < |days| && KeyOf(keyOf, days[j].date) == key
  }

  /** A key no day has sums to nothing. */
  lemma {:induction false} SumForAbsent(days: seq<DailyView>, keyOf: string -> string, key: string)
    requires !HasKey(days, keyOf, key)
    ensures SumFor(days, keyOf, key) == 0
    decreases |days|
  {
    if |days| > 0 {
      var init := days[..|days| - 1];
      SumForAbsent(init, keyOf, key);
      assert KeyOf(keyOf, days[|days| - 1].date) != key;
    }
  }

  // ---- the order of keys ----

  /** Character-by-character order of strings; a proper prefix comes first. */
  predicate Before(a: string, b: string)
    decreases |a|
  {
    |b| > 0 && (|a| == 0 || a[0] < b[0] || (a[0] == b[0] && Before(a[1..], b[1..])))
  }

  lemma {:induction false} BeforeIrreflexive(a: string)
    ensures !Before(a, a)
    decreases |a|
  {
    if |a| > 0 {
      BeforeIrreflexive(a[1..]);
    }
  }

  lemma {:induction false} BeforeTransitive(a: string, b: string, c: string)
    requires Before(a, b) && Before(b, c)
    ensures Before(a, c)
    decreases |a|
  {
    if |a| > 0 && a[0] == b[0] && b[0] == c[0] {
      BeforeTransitive(a[1..], b[1..], c[1..]);
    }
  }

  lemma {:induction false} BeforeTotal(a: string, b: string)
    ensures a == b || Before(a, b) || Before(b, a)
    decreases |a|
  {
    if |a| > 0 && |b| > 0 && a[0] == b[0] {
      BeforeTotal(a[1..], b[1..]);
      if a[1..] == b[1..] {
        assert a == [a[0]] + a[1..] && b == [b[0]] + b[1..];
      }
    }
  }

  /** Entries in strictly increasing key order, which also makes the keys distinct. */
  predicate StrictlySorted(entries: seq<(string, int)>) {
    forall i, j :: 0 <= i < j < |entries| ==> Before(entries[i].0, entries[j].0)
  }

  predicate Listed(entries: seq<(string, int)>, key: string) {
    exists i :: 0 <= i < |entries| && entries[i].0 == key
  }

  /**
   * What the route promises of a list of `{key, count}` entries: sorted by
   * key, one entry per key of the days and no other, each holding the sum
   * of its days.
   */
  predicate Summarises(entries: seq<(string, int)>, days: seq<DailyView>, keyOf: string -> string) {
    && StrictlySorted(entries)
    && (forall i :: 0 <= i < |entries| ==> HasKey(days, keyOf, entries[i].0) && entries[i].1 == SumFor(days, keyOf, entries[i].0))
    && (forall j :: 0 <= j < |days| ==> Listed(entries, KeyOf(keyOf, days[j].date)))
  }

  // ---- the two loops and the sort ----

  /**
   * `dailyViews.forEach(... map.set(key, (map.get(key) || 0) + count))`,
   * keeping the keys in the order the map first saw them.
   */
  method Accumulate(days: seq<DailyView>, keyOf: string -> string) returns (m: map<string, int>, order: seq<string>)
    ensures forall k :: k in m <==> HasKey(days, keyOf, k)
    ensures forall k :: k in m ==> m[k] == SumFor(days, keyOf, k)
    ensures forall k :: k in m <==> k in order
    ensures forall i, j :: 0 <= i < j < |order| ==> order[i] != order[j]
  {
    m := map[];
    order := [];
    var i := 0;
    while i < |days|
      invariant 0 <= i <= |days|
      invariant forall k :: k in m <==> HasKey(days[..i], keyOf, k)
      invariant forall k :: k in m ==> m[k] == SumFor(days[..i], keyOf, k)
      invariant forall k :: k in m <==> k in order
      invariant forall a, b :: 0 <= a < b < |order| ==> order[a] != order[b]
    {
      var key := KeyOf(keyOf, days[i].date);
      AccumulateStep(days, keyOf, i);
      if key !in m {
        SumForAbsent(days[..i], keyOf, key);
        order := order + [key];
      }
      m := m[key := (if key in m then m[key] else 0) + days[i].count];
      i := i + 1;
    }
    assert days[..|days|] == days;
  }

  /** One more day adds its key to the keys seen and its count to that key's sum. */
  lemma AccumulateStep(days: seq<DailyView>, keyOf: string -> string, i: nat)
    requires i < |days|
    ensures var key := KeyOf(keyOf, days[i].date);
      forall k :: HasKey(days[..i + 1], keyOf, k) <==> HasKey(days[..i], keyOf, k) || k == key
    ensures var key := KeyOf(keyOf, days[i].date);
      forall k :: SumFor(days[..i + 1], keyOf, k) == SumFor(days[..i], keyOf, k) + (if key == k then days[i].count else 0)
  {
    var key := KeyOf(keyOf, days[i].date);
    var prefix := days[..i + 1];
    assert prefix[..i] == days[..i];
    forall k | HasKey(prefix, keyOf, k)
      ensures HasKey(days[..i], keyOf, k) || k == key
    {
      var j :| 0 <= j < |prefix| && KeyOf(keyOf, prefix[j].date) == k;
      if j < i {
        assert days[..i][j] == prefix[j];
      }
    }
    forall k | HasKey(days[..i], keyOf, k)
      ensures HasKey(prefix, keyOf, k)
    {
      var j :| 0 <= j < i && KeyOf(keyOf, days[..i][j].date) == k;
      assert prefix[j] == days[..i][j];
    }
    assert KeyOf(keyOf, prefix[i].date) == key;
    assert prefix[|prefix| - 1] == days[i];
  }

  /** `map.forEach((count, key) => list.push({key, count}))`. */
  method Entries(m: map<string, int>, order: seq<string>) returns (entries: seq<(string, int)>)
    requires forall k :: k in order ==> k in m
    ensures |entries| == |order|
    ensures forall i :: 0 <= i < |order| ==> entries[i] == (order[i], m[order[i]])
  {
    entries := [];
    var i := 0;
    while i < |order|
      invariant 0 <= i <= |order|
      invariant |entries| == i
      invariant forall j :: 0 <= j < i ==> entries[j] == (order[j], m[order[j]])
    {
      entries := entries + [(order[i], m[order[i]])];
      i := i + 1;
    }
  }

  /** `e` placed into a sorted list before the first larger key. */
  function Insert(sorted: seq<(string, int)>, e: (string, int)): (r: seq<(string, int)>)
    ensures |r| == |sorted| + 1
    ensures multiset(r) == multiset(sorted) + multiset{e}
    ensures forall x :: x in r <==> x in sorted || x == e
    decreases |sorted|
  {
    if |sorted| == 0 then [e]
    else if Before(e.0, sorted[0].0) then [e] + sorted
    else
      assert sorted == [sorted[0]] + sorted[1..];
      [sorted[0]] + Insert(sorted[1..], e)
  }

  lemma {:induction false} InsertSorted(sorted: seq<(string, int)>, e: (string, int))
    requires StrictlySorted(sorted)
    requires forall i :: 0 <= i < |sorted| ==> sorted[i].0 != e.0
    ensures StrictlySorted(Insert(sorted, e))
    decreases |sorted|
  {
    if |sorted| > 0 && !Before(e.0, sorted[0].0) {
      BeforeTotal(e.0, sorted[0].0);
      InsertSorted(sorted[1..], e);
      var rest := Insert(sorted[1..], e);
      forall j | 0 <= j < |rest|
        ensures Before(sorted[0].0, rest[j].0)
      {
        assert rest[j] in rest;
        if rest[j] != e {
          var k :| 0 <= k < |sorted[1..]| && sorted[1..][k] == rest[j];
          assert sorted[k + 1] == rest[j];
        }
      }
    } else if |sorted| > 0 {
      forall i | 0 <= i < |sorted|
        ensures Before(e.0, sorted[i].0)
      {
        if i > 0 {
          BeforeTransitive(e.0, sorted[0].0, sorted[i].0);
        }
      }
    }
  }

  /** One step of the sort: inserting the next entry keeps the prefix sorted and complete. */
  lemma SortStep(entries: seq<(string, int)>, i: nat, sorted: seq<(string, int)>)
    requires i < |entries|
    requires forall i, j :: 0 <= i < j < |entries| ==> entries[i].0 != entries[j].0
    requires StrictlySorted(sorted)
    requires multiset(sorted) == multiset(entries[..i])
    requires forall x :: x in sorted <==> x in entries[..i]
    ensures StrictlySorted(Insert(sorted, entries[i]))
    ensures multiset(Insert(sorted, entries[i])) == multiset(entries[..i + 1])
    ensures forall x :: x in Insert(sorted, entries[i]) <==> x in entries[..i + 1]
  {
    forall j | 0 <= j < |sorted|
      ensures sorted[j].0 != entries[i].0
    {
      assert sorted[j] in entries[..i];
      var k :| 0 <= k < i && entries[..i][k] == sorted[j];
    }
    InsertSorted(sorted, entries[i]);
    TakeOneMore(entries, i);
  }

  /** `list.sort((a, b) => a.key.localeCompare(b.key))` on entries with distinct keys. */
  method SortEntries(entries: seq<(string, int)>) returns (sorted: seq<(string, int)>)
    requires forall i, j :: 0 <= i < j < |entries| ==> entries[i].0 != entries[j].0
    ensures StrictlySorted(sorted)
    ensures multiset(sorted) == multiset(entries)
  {
    sorted := [];
    var i := 0;
    while i < |entries|
      invariant 0 <= i <= |entries|
      invariant StrictlySorted(sorted)
      invariant multiset(sorted) == multiset(entries[..i])
      invariant forall x :: x in sorted <==> x in entries[..i]
    {
      SortStep(entries, i, sorted);
      sorted := Insert(sorted, entries[i]);
      i := i + 1;
    }
    assert entries[..|entries|] == entries;
  }

  /** One of the two lists of the response: accumulated, pushed, sorted. */
  method Summary(days: seq<DailyView>, keyOf: string -> string) returns (entries: seq<(string, int)>)
    ensures Summarises(entries, days, keyOf)
  {
    var m, order := Accumulate(days, keyOf);
    var pushed := Entries(m, order);
    entries := SortEntries(pushed);
    forall i | 0 <= i < |entries|
      ensures HasKey(days, keyOf, entries[i].0) && entries[i].1 == SumFor(days, keyOf, entries[i].0)
    {
      assert entries[i] in multiset(pushed);
    }
    forall j | 0 <= j < |days|
      ensures Listed(entries, KeyOf(keyOf, days[j].date))
    {
      var key := KeyOf(keyOf, days[j].date);
      assert HasKey(days, keyOf, key);
      var k :| 0 <= k < |order| && order[k] == key;
      assert pushed[k] in multiset(entries);
      var w :| 0 <= w < |entries| && entries[w] == pushed[k];
      assert entries[w].0 == KeyOf(keyOf, days[j].date);
    }
  }

  // ---- totals ----

  /** The sum over `keys` of each key's days. */
  function SumKeys(days: seq<DailyView>, keyOf: string -> string, keys: seq<string>): int
    decreases |keys|
  {
    if |keys| == 0 then 0 else SumFor(days, keyOf, keys[0]) + SumKeys(days, keyOf, keys[1..])
  }

  lemma {:induction false} SumKeysNoDays(keyOf: string -> string, keys: seq<string>)
    ensures SumKeys([], keyOf, keys) == 0
    decreases |keys|
  {
    if |keys| > 0 {
      SumKeysNoDays(keyOf, keys[1..]);
    }
  }

  lemma {:induction false} SumKeysSnoc(days: seq<DailyView>, d: DailyView, keyOf: string -> string, keys: seq<string>)
    requires forall i, j :: 0 <= i < j < |keys| ==> keys[i] != keys[j]
    ensures SumKeys(days + [d], keyOf, keys) == SumKeys(days, keyOf, keys) + (if KeyOf(keyOf, d.date) in keys then d.count else 0)
    decreases |keys|
  {
    if |keys| > 0 {
      assert (days + [d])[..|days|] == days;
      SumKeysSnoc(days, d, keyOf, keys[1..]);
    }
  }

  /** Summing per key over distinct keys that cover every day gives the total of the days. */
  lemma {:induction false} SumKeysTotal(days: seq<DailyView>, keyOf: string -> string, keys: seq<string>)
    requires forall i, j :: 0 <= i < j < |keys| ==> keys[i] != keys[j]
    requires forall j :: 0 <= j < |days| ==> KeyOf(keyOf, days[j].date) in keys
    ensures SumKeys(days, keyOf, keys) == Total(days)
    decreases |days|
  {
    if |days| == 0 {
      SumKeysNoDays(keyOf, keys);
    } else {
      var init := days[..|days| - 1];
      var d := days[|days| - 1];
      assert days == init + [d];
      SumKeysTotal(init, keyOf, keys);
      SumKeysSnoc(init, d, keyOf, keys);
    }
  }

  function CountSum(entries: seq<(string, int)>): int
    decreases |entries|
  {
    if |entries| == 0 then 0 else entries[0].1 + CountSum(entries[1..])
  }

  function KeysOf(entries: seq<(string, int)>): (keys: seq<string>)
    ensures |keys| == |entries|
    ensures forall i :: 0 <= i < |entries| ==> keys[i] == entries[i].0
  {
    seq(|entries|, i requires 0 <= i < |entries| => entries[i].0)
  }

  lemma {:induction false} CountSumIsSumKeys(entries: seq<(string, int)>, days: seq<DailyView>, keyOf: string -> string)
    requires forall i :: 0 <= i < |entries| ==> entries[i].1 == SumFor(days, keyOf, entries[i].0)
    ensures CountSum(entries) == SumKeys(days, keyOf, KeysOf(entries))
    decreases |entries|
  {
    if |entries| > 0 {
      CountSumIsSumKeys(entries[1..], days, keyOf);
      assert KeysOf(entries)[1..] == KeysOf(entries[1..]);
    }
  }

  /** The counts of a summary add up to the total of the days: no view is lost or counted twice. */
  lemma SummaryKeepsTotal(entries: seq<(string, int)>, days: seq<DailyView>, keyOf: string -> string)
    requires Summarises(entries, days, keyOf)
    ensures CountSum(entries) == Total(days)
  {
    var keys := KeysOf(entries);
    forall i, j | 0 <= i < j < |keys|
      ensures keys[i] != keys[j]
    {
      BeforeIrreflexive(keys[i]);
    }
    forall j | 0 <= j < |days|
      ensures KeyOf(keyOf, days[j].date) in keys
    {
      var i :| 0 <= i < |entries| && entries[i].0 == KeyOf(keyOf, days[j].date);
      assert keys[i] == entries[i].0;
    }
    CountSumIsSumKeys(entries, days, keyOf);
    SumKeysTotal(days, keyOf, keys);
  }

  // ---- the route ----

  datatype StatsResponse =
    | Unauthorized
    | Statistics(weekly: seq<(string, int)>, monthly: seq<(string, int)>, adminRole: Option<string>)
    | ServerError(error: string)

  /** Both summaries of `dailyViews || []`. */
  method Summaries(dailyViews: Option<seq<DailyView>>, weekOf: string -> string)
    returns (weekly: seq<(string, int)>, monthly: seq<(string, int)>)
    ensures Summarises(weekly, dailyViews.GetOr([]), weekOf)
    ensures Summarises(monthly, dailyViews.GetOr([]), MonthKey)
  {
    var days := dailyViews.GetOr([]);
    weekly := Summary(days, weekOf);
    monthly := Summary(days, MonthKey);
  }

  /**
   * `GET` as written: `getTokenRole` is asynchronous and its promise is not
   * awaited, so `!role` is always false and the 401 is never answered; the
   * role in the response is the promise, which `JSON.stringify` writes as
   * `{}`; `adminRole` is `None` in its place.
   */
  method GetAsWritten(statsResult: Result<Option<seq<DailyView>>, Option<string>>, weekOf: string -> string)
    returns (r: StatsResponse)
    ensures r != Unauthorized
    ensures statsResult.Failure? ==> r == ServerError(OrDefault(statsResult.error, "Failed to get statistics"))
    ensures statsResult.Success? ==>
      (r.Statistics? && r.adminRole.None?
       && Summarises(r.weekly, statsResult.value.GetOr([]), weekOf)
       && Summarises(r.monthly, statsResult.value.GetOr([]), MonthKey))
  {
    match statsResult
    case Failure(e) =>
      return ServerError(OrDefault(e, "Failed to get statistics"));
    case Success(dailyViews) =>
      var weekly, monthly := Summaries(dailyViews, weekOf);
      return Statistics(weekly, monthly, None);
  }

  /** `GET` with the role awaited: a token that resolves to no role is answered 401 before the statistics are read. */
  method Get(cfg: TokenGenerator.Config, isoNow: string, token: Option<string>,
             statsResult: Result<Option<seq<DailyView>>, Option<string>>, weekOf: string -> string)
    returns (r: StatsResponse)
    ensures var role := TokenGenerator.TokenRole(cfg, TokenGenerator.DateKey(isoNow), OrDefault(token, ""));
      && (role.None? ==> r == Unauthorized)
      && (role.Some? && statsResult.Failure? ==> r == ServerError(OrDefault(statsResult.error, "Failed to get statistics")))
      && (role.Some? && statsResult.Success? ==>
            (r.Statistics? && r.adminRole == role
             && Summarises(r.weekly, statsResult.value.GetOr([]), weekOf)
             && Summarises(r.monthly, statsResult.value.GetOr([]), MonthKey)))
  {
    var role := TokenGenerator.GetTokenRole(cfg, isoNow, OrDefault(token, ""));
    if role.None? {
      return Unauthorized;
    }
    match statsResult
    case Failure(e) =>
      return ServerError(OrDefault(e, "Failed to get statistics"));
    case Success(dailyViews) =>
      var weekly, monthly := Summaries(dailyViews, weekOf);
      return Statistics(weekly, monthly, role);
  }
}
