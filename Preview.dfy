/**
 * The magazine preview page (src/app/admin/magazines/preview/page.tsx):
 * it turns the editor's data into the body of the publish request, with
 * the blocks sorted by their `order` (stably, as `Array.prototype.sort`
 * is), and refuses to send a magazine without blocks.
 */
module Preview {
  import opened Wrappers
  import opened Text
  import opened Credits
  import opened BlockEditor
  import opened Sorting

  /** The sort key of `sort((a, b) => a.order - b.order)`. */
  function OrderKey(b: Block): int {
    b.order
  }

  // ---- the publish request ----

  /** A block of the request body; the fields that do not apply to the block's kind are left undefined. */
  datatype SavedBlock = SavedBlock(kind: BlockType, order: int, markdown: Option<string>, imageUrl: Option<string>, imageSource: Option<string>)

  datatype MagazineData = MagazineData(
    title: string, subtitle: Option<string>, category: Category, status: string,
    brandName: string, brandUrl: Option<string>, credits: seq<Credit>, blocks: seq<SavedBlock>)

  const DefaultTitle: string := "제목 없음"
  const DefaultBrand: string := "Vinscent"

  /** `v || fallback` for a string. */
  function OrElse(v: string, fallback: string): (r: string)
    ensures v != "" ==> r == v
    ensures v == "" ==> r == fallback
  {
    if v != "" then v else fallback
  }

  /** `v || null` for a string. */
  function OrNull(v: string): (r: Option<string>)
    ensures r.None? <==> v == ""
    ensures r.Some? ==> r.value == v
  {
    if v != "" then Some(v) else None
  }

  /** A block's request fields by kind, missing values becoming empty. */
  function SaveBlock(b: Block): (r: SavedBlock)
    ensures r.kind == b.kind && r.order == b.order
    ensures r.markdown.Some? <==> b.kind == TextBlock
    ensures r.imageUrl.Some? <==> b.kind == ImageBlock
    ensures r.imageSource.Some? <==> b.kind == ImageBlock
    ensures b.kind == TextBlock && b.content.TextContent? ==> r.markdown == Some(b.content.markdown)
    ensures b.kind == ImageBlock && b.content.ImageContent? ==>
      r.imageUrl == Some(b.content.imageUrl) && r.imageSource == Some(b.content.imageSource)
  {
    match b.kind
    case TextBlock =>
      SavedBlock(b.kind, b.order, Some(if b.content.TextContent? then b.content.markdown else ""), None, None)
    case ImageBlock =>
      if b.content.ImageContent? then SavedBlock(b.kind, b.order, None, Some(b.content.imageUrl), Some(b.content.imageSource))
      else SavedBlock(b.kind, b.order, None, Some(""), Some(""))
  }

  function SaveBlocks(blocks: seq<Block>): (r: seq<SavedBlock>)
    ensures |r| == |blocks|
    ensures forall i :: 0 <= i < |blocks| ==> r[i] == SaveBlock(blocks[i])
  {
    seq(|blocks|, i requires 0 <= i < |blocks| => SaveBlock(blocks[i]))
  }

  /** The request body for the preview data, with the blocks in sorted order. */
  function MagazineDataOf(data: PreviewData): (m: MagazineData)
    ensures m.status == "published" && m.category == data.category
    ensures |m.blocks| == |data.blocks|
  {
    MagazineData(
      OrElse(data.title, DefaultTitle), OrNull(data.subtitle), data.category, "published",
      OrElse(data.brandName, DefaultBrand), OrNull(data.brandUrl),
      ParseCredits(data.credits), SaveBlocks(SortByKey(data.blocks, OrderKey)))
  }

  /** `convertBlocksToMagazineData(data)`: sorts the blocks in place, then maps them. */
  method ConvertBlocksToMagazineData(data: PreviewData) returns (m: MagazineData)
    ensures m == MagazineDataOf(data)
  {
    var a := new Block[|data.blocks|](i requires 0 <= i < |data.blocks| => data.blocks[i]);
    assert a[..] == data.blocks;
    SortInPlace(a, OrderKey);
    var saved := SaveBlocks(a[..]);
    m := MagazineData(
      if data.title != "" then data.title else DefaultTitle,
      if data.subtitle != "" then Some(data.subtitle) else None,
      data.category, "published",
      if data.brandName != "" then data.brandName else DefaultBrand,
      if data.brandUrl != "" then Some(data.brandUrl) else None,
      ParseCredits(data.credits), saved);
  }

  /**
   * The request body is always a publication with a title and a brand,
   * its blocks are those of the editor (one each) in ascending order, and
   * blocks numbered 1..n keep their list order.
   */
  lemma MagazineDataShape(data: PreviewData)
    ensures var m := MagazineDataOf(data);
      m.status == "published" && m.title != "" && m.brandName != ""
      && |m.blocks| == |data.blocks|
      && (forall i, j :: 0 <= i < j < |m.blocks| ==> m.blocks[i].order <= m.blocks[j].order)
      && (Sequential(data.blocks) ==> m.blocks == SaveBlocks(data.blocks))
  {
    SortByKeySorted(data.blocks, OrderKey);
    if Sequential(data.blocks) {
      SortByKeyOfSorted(data.blocks, OrderKey);
    }
  }

  /**
   * The blocks sent are a rearrangement of the editor's blocks, and blocks
   * that share an order value are sent in the order the editor has them.
   */
  lemma MagazineDataBlocksPermuted(data: PreviewData, v: int)
    ensures multiset(SortByKey(data.blocks, OrderKey)) == multiset(data.blocks)
    ensures WithKey(SortByKey(data.blocks, OrderKey), v, OrderKey) == WithKey(data.blocks, v, OrderKey)
  {
    SortByKeyStable(data.blocks, v, OrderKey);
  }

  datatype SaveRefusal = EmptyBlocks | EmptyConversion | NoLogin

  /** The PUT that updates the magazine being edited, or the POST that publishes a new one. */
  datatype SaveRequest = UpdateMagazine(magazineId: int, token: string, body: MagazineData) | CreateMagazine(token: string, body: MagazineData)

  /** `handleSave()` up to the request. */
  function HandleSave(data: PreviewData, token: Option<string>): (r: Result<SaveRequest, SaveRefusal>)
    ensures r.Success? ==> |data.blocks| > 0 && TruthyString(token) && r.value.token == token.value
    ensures r.Success? && r.value.UpdateMagazine? ==> Some(r.value.magazineId) == data.editingMagazineId
  {
    if |data.blocks| == 0 then Failure(EmptyBlocks)
    else
      var m := MagazineDataOf(data);
      if |m.blocks| == 0 then Failure(EmptyConversion)
      else if !TruthyString(token) then Failure(NoLogin)
      else if data.isEditMode && TruthyNumber(data.editingMagazineId) then Success(UpdateMagazine(data.editingMagazineId.value, token.value, m))
      else Success(CreateMagazine(token.value, m))
  }

  /**
   * Saving aborts on an empty block list and without a login token and
   * never for an empty conversion (the conversion keeps every block); it
   * updates exactly in edit mode with a magazine id.
   */
  lemma HandleSaveOutcome(data: PreviewData, token: Option<string>)
    ensures HandleSave(data, token) == Failure(EmptyBlocks) <==> data.blocks == []
    ensures HandleSave(data, token) != Failure(EmptyConversion)
    ensures HandleSave(data, token) == Failure(NoLogin) <==> data.blocks != [] && !TruthyString(token)
    ensures HandleSave(data, token).Success? ==>
      HandleSave(data, token).value.body == MagazineDataOf(data)
      && (HandleSave(data, token).value.UpdateMagazine? <==> data.isEditMode && TruthyNumber(data.editingMagazineId))
  {
  }

  /** The editor's credits text, however it was written, reaches the server as complete credits only. */
  lemma SavedCreditsComplete(data: PreviewData)
    ensures forall i :: 0 <= i < |MagazineDataOf(data).credits| ==>
      MagazineDataOf(data).credits[i].role != "" && MagazineDataOf(data).credits[i].name != ""
  {
  }
}
