/**
 * The magazine card of the mobile home carousel
 * (src/components/home/MagazineCarouselMobileCard.tsx): how long ago the
 * magazine appeared, in days, weeks or months; the generated preview text,
 * cut to 100 characters; and whether the thumbnail is usable. Times are
 * milliseconds since the epoch; reading a date string is left to the caller.
 */
module MobileCard {
  import opened Wrappers
  import opened Text

  const DayMs: int := 1000 * 60 * 60 * 24
  const PreviewLimit: int := 100

  /** How long ago, as the card words it. */
  datatype Age = Today | Yesterday | DaysAgo(days: int) | WeeksAgo(weeks: int) | MonthsAgo(months: int)

  /** The bucket of a whole number of days: 0, 1, under 7, under 30, then months. */
  function AgeOf(diffDays: int): (a: Age)
    ensures a == Today <==> diffDays == 0
    ensures a == Yesterday <==> diffDays == 1
    ensures a.DaysAgo? <==> diffDays < 7 && diffDays != 0 && diffDays != 1
    ensures a.DaysAgo? ==> a.days == diffDays
    ensures a.WeeksAgo? <==> 7 <= diffDays < 30
    ensures a.WeeksAgo? ==> 1 <= a.weeks <= 4 && a.weeks * 7 <= diffDays < (a.weeks + 1) * 7
    ensures a.MonthsAgo? <==> diffDays >= 30
    ensures a.MonthsAgo? ==> a.months >= 1 && a.months * 30 <= diffDays < (a.months + 1) * 30
  {
    if diffDays == 0 then Today
    else if diffDays == 1 then Yesterday
    else if diffDays < 7 then DaysAgo(diffDays)
    else if diffDays < 30 then WeeksAgo(FloorDiv(diffDays, 7))
    else MonthsAgo(FloorDiv(diffDays, 30))
  }

  function Render(a: Age): (r: string)
    ensures r == "오늘" <==> a == Today
    ensures r == "어제" <==> a == Yesterday
  {
    match a
    case Today => "오늘"
    case Yesterday => "어제"
    case DaysAgo(n) => IntToString(n) + "일 전"
    case WeeksAgo(n) => IntToString(n) + "주 전"
    case MonthsAgo(n) => IntToString(n) + "개월 전"
  }

  /** `Math.floor((now - target) / 86400000)`, the target being the publication time or else the creation time. */
  function DiffDays(publishedMs: Option<int>, createdMs: int, now: int): (d: int)
    ensures var target := publishedMs.GetOr(createdMs); d * DayMs <= now - target < (d + 1) * DayMs
  {
    FloorDiv(now - publishedMs.GetOr(createdMs), DayMs)
  }

  /** `formattedDate`. */
  function FormattedDate(publishedMs: Option<int>, createdMs: int, now: int): (r: string)
    ensures r == "오늘" <==> 0 <= now - publishedMs.GetOr(createdMs) < DayMs
    ensures r == "어제" <==> DayMs <= now - publishedMs.GetOr(createdMs) < 2 * DayMs
  {
    Render(AgeOf(DiffDays(publishedMs, createdMs, now)))
  }

  /** The order of the buckets, from newest to oldest. */
  function Rank(a: Age): int {
    match a
    case Today => 0
    case Yesterday => 1
    case DaysAgo(n) => if n < 0 then -1 else 2
    case WeeksAgo(_) => 3
    case MonthsAgo(_) => 4
  }

  /** A card never gets younger as time passes: more days never give a newer bucket, nor a smaller number within one. */
  lemma AgeMonotone(d1: int, d2: int)
    requires d1 <= d2
    ensures Rank(AgeOf(d1)) <= Rank(AgeOf(d2))
    ensures AgeOf(d1).WeeksAgo? && AgeOf(d2).WeeksAgo? ==> AgeOf(d1).weeks <= AgeOf(d2).weeks
    ensures AgeOf(d1).MonthsAgo? && AgeOf(d2).MonthsAgo? ==> AgeOf(d1).months <= AgeOf(d2).months
  {
    if AgeOf(d1).WeeksAgo? && AgeOf(d2).WeeksAgo? {
      assert AgeOf(d1).weeks * 7 <= d1 <= d2 < (AgeOf(d2).weeks + 1) * 7;
    }
    if AgeOf(d1).MonthsAgo? && AgeOf(d2).MonthsAgo? {
      assert AgeOf(d1).months * 30 <= d1 <= d2 < (AgeOf(d2).months + 1) * 30;
    }
  }

  /** A publication time in the future reads "-N일 전": the day count is negative and falls into the days bucket. */
  lemma FutureDateReadsNegative(publishedMs: int, createdMs: int, now: int)
    requires publishedMs > now
    ensures DiffDays(Some(publishedMs), createdMs, now) < 0
    ensures AgeOf(DiffDays(Some(publishedMs), createdMs, now)).DaysAgo?
  {
  }

  // ---- preview ----

  /** `text.length > 100 ? text.substring(0, 97) + '...' : text`. */
  function Truncate(text: string): (r: string)
    ensures |r| <= PreviewLimit || r == text
    ensures |text| > PreviewLimit ==> |r| == PreviewLimit && r[..97] == text[..97] && r[97..] == "..."
    ensures |text| <= PreviewLimit ==> r == text
  {
    if |text| > PreviewLimit then text[..97] + "..." else text
  }

  /** Cutting a preview twice changes nothing the second time. */
  lemma TruncateIdempotent(text: string)
    ensures Truncate(Truncate(text)) == Truncate(text)
  {
  }

  const PreviewMiddle := "의 새로운 매거진을 확인해보세요. "
  const PreviewEnd := "에 대한 자세한 내용과 다양한 이야기를 만나보실 수 있습니다."

  /** `contentPreview`. */
  function ContentPreview(brandName: string, title: string): (p: string)
    ensures |p| <= PreviewLimit
  {
    Truncate(brandName + PreviewMiddle + title + PreviewEnd)
  }

  /** The fixed words take 53 characters, so the preview is cut exactly when brand and title together exceed 47. */
  lemma PreviewCutIff(brandName: string, title: string)
    ensures ContentPreview(brandName, title) == brandName + PreviewMiddle + title + PreviewEnd <==> |brandName| + |title| <= 47
  {
    assert |PreviewMiddle| == 19 && |PreviewEnd| == 34;
    var text := brandName + PreviewMiddle + title + PreviewEnd;
    if |text| > PreviewLimit {
      assert |ContentPreview(brandName, title)| != |text|;
    }
  }

  // ---- thumbnail ----

  /** `magazine.thumbnail?.imageUrl && imageUrl.trim() !== ''`: a URL with a character that is not whitespace. */
  function HasValidImage(imageUrl: Option<string>): (valid: bool)
    ensures valid <==> imageUrl.Some? && !AllWhitespace(imageUrl.value)
  {
    TruthyString(imageUrl) && Trim(imageUrl.value) != ""
  }
}
