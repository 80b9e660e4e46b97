/**
 * Shared pieces of the magazine database operations
 * (src/lib/db/operations/magazines/helpers.ts): the block rows written for
 * a magazine, the thumbnail query over the block table, the card built
 * from a magazine row, and the JSON credits column. The block table is a
 * sequence of rows in insertion order; JSON is a codec passed in.
 */
module MagazineHelpers {
  import opened Wrappers
  import opened BlockEditor
  import opened Credits

  /** A block as the create and update operations receive it. */
  datatype BlockInput = BlockInput(kind: BlockType, order: int, markdown: Option<string>, imageUrl: Option<string>, imageSource: Option<string>)

  /** A row of the `magazine_blocks` table. */
  datatype BlockRow = BlockRow(
    id: int, magazineId: int, kind: BlockType, blockOrder: int,
    textContent: Option<string>, imageUrl: Option<string>, imageSource: Option<string>)

  /** `v || null` for an optional string: absent and empty both become `null`. */
  function NullIfEmpty(v: Option<string>): (r: Option<string>)
    ensures r.None? <==> v.None? || v.value == ""
    ensures r.Some? ==> r == v
  {
    if v.Some? && v.value != "" then v else None
  }

  // ---- insertMagazineBlocks: one row per block ----

  /** The row written for `b`, given the id the table assigns to it. */
  function RowOf(id: int, magazineId: int, b: BlockInput): (r: BlockRow)
  {
    BlockRow(id, magazineId, b.kind, b.order,
      if b.kind == TextBlock then NullIfEmpty(b.markdown) else None,
      if b.kind == ImageBlock then NullIfEmpty(b.imageUrl) else None,
      if b.kind == ImageBlock then NullIfEmpty(b.imageSource) else None)
  }

  /** The rows written for `blocks`, numbered from `firstId` as the auto-increment key does. */
  function RowsOf(firstId: int, magazineId: int, blocks: seq<BlockInput>): (r: seq<BlockRow>)
    ensures |r| == |blocks|
    ensures forall i :: 0 <= i < |blocks| ==> r[i] == RowOf(firstId + i, magazineId, blocks[i])
  {
    seq(|blocks|, i requires 0 <= i < |blocks| => RowOf(firstId + i, magazineId, blocks[i]))
  }

  /** Each row keeps its block's magazine, kind and order; text goes only to text rows, the image fields only to image rows. */
  lemma RowMapping(firstId: int, magazineId: int, blocks: seq<BlockInput>, i: nat)
    requires i < |blocks|
    ensures var r := RowsOf(firstId, magazineId, blocks)[i];
      && r.magazineId == magazineId && r.kind == blocks[i].kind && r.blockOrder == blocks[i].order
      && (r.textContent.Some? <==> blocks[i].kind == TextBlock && blocks[i].markdown.Some? && blocks[i].markdown.value != "")
      && (r.imageUrl.Some? <==> blocks[i].kind == ImageBlock && blocks[i].imageUrl.Some? && blocks[i].imageUrl.value != "")
      && (r.imageSource.Some? <==> blocks[i].kind == ImageBlock && blocks[i].imageSource.Some? && blocks[i].imageSource.value != "")
      && (r.textContent.Some? ==> r.textContent == blocks[i].markdown)
      && (r.imageUrl.Some? ==> r.imageUrl == blocks[i].imageUrl)
  {
  }

  /** The `(magazineId, blockOrder)` pairs of a table are unique, as the table's unique index demands. */
  predicate OrdersUnique(table: seq<BlockRow>) {
    forall i, j :: 0 <= i < j < |table| ==>
      table[i].magazineId != table[j].magazineId || table[i].blockOrder != table[j].blockOrder
  }

  // ---- extractMagazineThumbnail ----

  datatype Thumbnail = Thumbnail(id: int, imageUrl: string, imageOrder: int, magazineId: int)

  /** A row the thumbnail query selects: an image block of the magazine with a non-null, non-empty URL. */
  predicate IsThumbnailCandidate(row: BlockRow, magazineId: int) {
    row.magazineId == magazineId && row.kind == ImageBlock && row.imageUrl.Some? && row.imageUrl.value != ""
  }

  function ThumbnailOf(row: BlockRow): Thumbnail
    requires row.imageUrl.Some?
  {
    Thumbnail(row.id, row.imageUrl.value, row.blockOrder, row.magazineId)
  }

  /**
   * `extractMagazineThumbnail(magazineId)`: the candidate with the smallest
   * `blockOrder` (`ORDER BY block_order LIMIT 1`), or nothing. The query
   * does not say which of two rows with the same order comes first; here it
   * is the earlier row of the table.
   */
  method ExtractMagazineThumbnail(table: seq<BlockRow>, magazineId: int) returns (r: Option<Thumbnail>)
    ensures r.None? <==> forall j :: 0 <= j < |table| ==> !IsThumbnailCandidate(table[j], magazineId)
    ensures r.Some? ==> exists i :: (0 <= i < |table| && IsThumbnailCandidate(table[i], magazineId)
      && r.value == ThumbnailOf(table[i])
      && (forall j :: 0 <= j < |table| && IsThumbnailCandidate(table[j], magazineId) ==> table[i].blockOrder <= table[j].blockOrder)
      && (forall j :: 0 <= j < i && IsThumbnailCandidate(table[j], magazineId) ==> table[j].blockOrder > table[i].blockOrder))
  {
    r := None;
    var best := 0;
    var k := 0;
    while k < |table|
      invariant 0 <= k <= |table|
      invariant r.None? <==> forall j :: 0 <= j < k ==> !IsThumbnailCandidate(table[j], magazineId)
      invariant r.Some? ==> 0 <= best < k && IsThumbnailCandidate(table[best], magazineId) && r.value == ThumbnailOf(table[best])
      invariant r.Some? ==> forall j :: 0 <= j < k && IsThumbnailCandidate(table[j], magazineId) ==> table[best].blockOrder <= table[j].blockOrder
      invariant r.Some? ==> forall j :: 0 <= j < best && IsThumbnailCandidate(table[j], magazineId) ==> table[j].blockOrder > table[best].blockOrder
    {
      if IsThumbnailCandidate(table[k], magazineId) && (r.None? || table[k].blockOrder < table[best].blockOrder) {
        r := Some(ThumbnailOf(table[k]));
        best := k;
      }
      k := k + 1;
    }
  }

  // ---- transformToMagazineCard and filterValidMagazineCards ----

  /** A row of the `magazine` table, without its id. Dates are milliseconds since the epoch. */
  datatype MagazineRow = MagazineRow(
    title: string, subtitle: Option<string>, category: string, status: string,
    publishedDate: Option<int>, brandName: string, brandUrl: Option<string>,
    viewCount: int, credits: Option<string>, createdDate: int, updatedDate: int)

  datatype MagazineCard = MagazineCard(
    id: int, title: string, subtitle: Option<string>, viewCount: int, category: string,
    publishedDate: Option<int>, brandName: string, brandUrl: Option<string>,
    createdDate: int, updatedDate: int, thumbnail: Thumbnail)

  /** `transformToMagazineCard(m)`, given the result of the thumbnail query for `m`: no thumbnail, no card. */
  function TransformToMagazineCard(id: int, m: MagazineRow, thumbnail: Option<Thumbnail>): (r: Option<MagazineCard>)
    ensures r.None? <==> thumbnail.None?
    ensures r.Some? ==> (r.value.thumbnail == thumbnail.value && r.value.id == id
      && r.value.title == m.title && r.value.subtitle == m.subtitle && r.value.viewCount == m.viewCount
      && r.value.category == m.category && r.value.publishedDate == m.publishedDate
      && r.value.brandName == m.brandName && r.value.brandUrl == m.brandUrl
      && r.value.createdDate == m.createdDate && r.value.updatedDate == m.updatedDate)
  {
    match thumbnail
    case None => None
    case Some(t) =>
      Some(MagazineCard(id, m.title, m.subtitle, m.viewCount, m.category, m.publishedDate,
        m.brandName, m.brandUrl, m.createdDate, m.updatedDate, t))
  }

  /** `filterValidMagazineCards(cards)`: `cards.filter(card => card !== null)`. */
  function FilterValid<T>(cards: seq<Option<T>>): (r: seq<T>)
    ensures |r| <= |cards|
    decreases |cards|
  {
    if |cards| == 0 then []
    else (if cards[0].Some? then [cards[0].value] else []) + FilterValid(cards[1..])
  }

  /** A card is kept iff it was there and not `null`. */
  lemma {:induction false} FilterValidMembers<T>(cards: seq<Option<T>>, c: T)
    ensures c in FilterValid(cards) <==> Some(c) in cards
    decreases |cards|
  {
    if |cards| > 0 {
      FilterValidMembers(cards[1..], c);
      assert cards == [cards[0]] + cards[1..];
    }
  }

  /** Filtering splits over concatenation, so the cards keep their order. */
  lemma {:induction false} FilterValidAppend<T>(a: seq<Option<T>>, b: seq<Option<T>>)
    ensures FilterValid(a + b) == FilterValid(a) + FilterValid(b)
    decreases |a|
  {
    if |a| > 0 {
      assert (a + b)[1..] == a[1..] + b;
      FilterValidAppend(a[1..], b);
    } else {
      assert a + b == b;
    }
  }

  /** A list with no `null` passes through whole. */
  lemma {:induction false} FilterValidAllPresent<T>(cards: seq<T>)
    ensures FilterValid(seq(|cards|, i requires 0 <= i < |cards| => Some(cards[i]))) == cards
    decreases |cards|
  {
    var wrapped := seq(|cards|, i requires 0 <= i < |cards| => Some(cards[i]));
    if |cards| > 0 {
      FilterValidAllPresent(cards[1..]);
      assert wrapped[1..] == seq(|cards[1..]|, i requires 0 <= i < |cards[1..]| => Some(cards[1..][i]));
      assert cards == [cards[0]] + cards[1..];
    }
  }

  // ---- the JSON credits column and parseCredits ----

  /** `JSON.stringify` and `JSON.parse` at the credits type; `parse` is `None` where it throws. */
  datatype Json = Json(stringify: seq<Credit> -> string, parse: string -> Option<seq<Credit>>)

  /** A codec that reads back what it writes, and never writes the empty string (an array is at least `[]`). */
  ghost predicate Lawful(json: Json) {
    forall cs :: json.parse(json.stringify(cs)) == Some(cs) && json.stringify(cs) != ""
  }

  /** `parseCredits(creditsString)`. */
  function ParseCreditsColumn(json: Json, column: Option<string>): (r: seq<Credit>)
    ensures column.None? || column.value == "" ==> r == []
    ensures column.Some? && column.value != "" && json.parse(column.value).None? ==> r == []
    ensures column.Some? && column.value != "" && json.parse(column.value).Some? ==> r == json.parse(column.value).value
  {
    if column.None? || column.value == "" then []
    else json.parse(column.value).GetOr([])
  }

  /** What the create and update operations store for the credits: `JSON.stringify` of the array when one is given. */
  function CreditsColumn(json: Json, credits: Option<seq<Credit>>): Option<string> {
    if credits.Some? then Some(json.stringify(credits.value)) else None
  }

  /** Stored credits read back unchanged, and a magazine stored without credits reads back `[]`. */
  lemma StoredCreditsRoundTrip(json: Json, credits: Option<seq<Credit>>)
    requires Lawful(json)
    ensures ParseCreditsColumn(json, CreditsColumn(json, credits)) == credits.GetOr([])
  {
    if credits.Some? {
      assert json.parse(json.stringify(credits.value)) == Some(credits.value) && json.stringify(credits.value) != "";
    }
  }
}
