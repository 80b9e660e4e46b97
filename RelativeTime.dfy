/**
 * `formatRelativeTime` (src/utils/formatRelativeTime.ts): how long ago a
 * time was, in seconds, minutes, hours or days, and the plain date from a
 * week on. A date string without a `Z` is read as UTC by appending one.
 * Reading a date string (`parse`) and `formatDate` are functions of the
 * caller; times are milliseconds since the epoch.
 */
module RelativeTime {
  import opened Wrappers
  import opened Text

  /** The argument: a date string or a `Date`'s time. */
  datatype DateInput = DateText(s: string) | Time(ms: int)

  /** The bucket of an elapsed number of whole seconds. */
  datatype Ago = JustNow | MinutesAgo(n: int) | HoursAgo(n: int) | DaysAgo(n: int) | Older

  /** `date.includes('Z') ? date : date + 'Z'`. */
  function AsUtc(s: string): (r: string)
    ensures Includes(r, "Z")
    ensures Includes(s, "Z") ==> r == s
    ensures !Includes(s, "Z") ==> r == s + "Z"
  {
    if Includes(s, "Z") then s
    else
      IncludesInfix(s, "Z", "");
      assert s + "Z" + "" == s + "Z";
      s + "Z"
  }

  /** Marking a string as UTC twice is marking it once. */
  lemma AsUtcIdempotent(s: string)
    ensures AsUtc(AsUtc(s)) == AsUtc(s)
  {
  }

  /** The buckets: under a minute, under an hour, under a day, under a week, then older. */
  function AgoOf(seconds: int): (a: Ago)
    ensures a == JustNow <==> seconds < 60
    ensures a.MinutesAgo? <==> 60 <= seconds < 3600
    ensures a.HoursAgo? <==> 3600 <= seconds < 86400
    ensures a.DaysAgo? <==> 86400 <= seconds < 604800
    ensures a == Older <==> seconds >= 604800
    ensures a.MinutesAgo? ==> 1 <= a.n <= 59 && a.n * 60 <= seconds < (a.n + 1) * 60
    ensures a.HoursAgo? ==> 1 <= a.n <= 23 && a.n * 3600 <= seconds < (a.n + 1) * 3600
    ensures a.DaysAgo? ==> 1 <= a.n <= 6 && a.n * 86400 <= seconds < (a.n + 1) * 86400
  {
    if seconds < 60 then JustNow
    else if seconds < 3600 then MinutesAgo(FloorDiv(seconds, 60))
    else if seconds < 86400 then HoursAgo(FloorDiv(seconds, 3600))
    else if seconds < 604800 then DaysAgo(FloorDiv(seconds, 86400))
    else Older
  }

  function Rank(a: Ago): int {
    match a
    case JustNow => 0
    case MinutesAgo(_) => 1
    case HoursAgo(_) => 2
    case DaysAgo(_) => 3
    case Older => 4
  }

  /** More elapsed time never gives a newer bucket, nor a smaller number within the same one. */
  lemma AgoMonotone(s1: int, s2: int)
    requires s1 <= s2
    ensures Rank(AgoOf(s1)) <= Rank(AgoOf(s2))
    ensures Rank(AgoOf(s1)) == Rank(AgoOf(s2)) && AgoOf(s1) != JustNow && AgoOf(s1) != Older ==> AgoOf(s1).n <= AgoOf(s2).n
  {
    var a1 := AgoOf(s1);
    var a2 := AgoOf(s2);
    if a1.MinutesAgo? && a2.MinutesAgo? {
      assert a1.n * 60 <= s1 <= s2 < (a2.n + 1) * 60;
    } else if a1.HoursAgo? && a2.HoursAgo? {
      assert a1.n * 3600 <= s1 <= s2 < (a2.n + 1) * 3600;
    } else if a1.DaysAgo? && a2.DaysAgo? {
      assert a1.n * 86400 <= s1 <= s2 < (a2.n + 1) * 86400;
    }
  }

  /** `Math.floor((now - then) / 1000)`. */
  function ElapsedSeconds(thenMs: int, nowMs: int): (s: int)
    ensures s * 1000 <= nowMs - thenMs < (s + 1) * 1000
  {
    FloorDiv(nowMs - thenMs, 1000)
  }

  /**
   * `formatRelativeTime(date)`: an absent or empty argument gives `''`; a
   * string is read as UTC; a week or more is handed to `formatDate`.
   */
  function FormatRelativeTime(date: Option<DateInput>, nowMs: int, parse: string -> int, formatDate: int -> string): (r: string)
    ensures date.None? || date == Some(DateText("")) ==> r == ""
    ensures date.Some? && date.value.Time? && AgoOf(ElapsedSeconds(date.value.ms, nowMs)) == JustNow ==> r == "방금 전"
  {
    if date.None? || date.value == DateText("") then ""
    else
      var thenMs := match date.value case DateText(s) => parse(AsUtc(s)) case Time(ms) => ms;
      match AgoOf(ElapsedSeconds(thenMs, nowMs))
      case JustNow => "방금 전"
      case MinutesAgo(n) => IntToString(n) + "분 전"
      case HoursAgo(n) => IntToString(n) + "시간 전"
      case DaysAgo(n) => IntToString(n) + "일 전"
      case Older => formatDate(thenMs)
  }

  /** The empty cases, and the hand-over to `formatDate` from a week on. */
  lemma FormatRelativeTimeCases(date: Option<DateInput>, nowMs: int, parse: string -> int, formatDate: int -> string)
    ensures date.None? || date == Some(DateText("")) ==> FormatRelativeTime(date, nowMs, parse, formatDate) == ""
    ensures date.Some? && date.value.Time? && nowMs - date.value.ms >= 604800 * 1000 ==>
      FormatRelativeTime(date, nowMs, parse, formatDate) == formatDate(date.value.ms)
    ensures date.Some? && date.value.Time? && nowMs - date.value.ms < 60 * 1000 ==>
      FormatRelativeTime(date, nowMs, parse, formatDate) == "방금 전"
  {
    if date.Some? && date.value.Time? {
      var s := ElapsedSeconds(date.value.ms, nowMs);
      if nowMs - date.value.ms >= 604800 * 1000 {
        assert s >= 604800;
      }
      if nowMs - date.value.ms < 60 * 1000 {
        assert s < 60;
      }
    }
  }

  /** A string with and without its `Z` is read as the same time. */
  lemma UtcSuffixIrrelevant(s: string, nowMs: int, parse: string -> int, formatDate: int -> string)
    requires s != "" && !Includes(s, "Z")
    ensures FormatRelativeTime(Some(DateText(s)), nowMs, parse, formatDate) == FormatRelativeTime(Some(DateText(s + "Z")), nowMs, parse, formatDate)
  {
    IncludesInfix(s, "Z", "");
    assert s + "Z" + "" == s + "Z";
  }
}
