/**
 * The block editor of the magazine create/edit page
 * (src/app/admin/magazines/create/CreateMagazineContent.tsx).
 *
 * A magazine body is an ordered list of text and image blocks, each with an
 * `order` field. Adding after a block and deleting renumber the list to
 * 1..n; appending gives the new block the next number; updating a block's
 * content touches nothing else. Saving a draft checks the title and the
 * block list and builds the request body.
 */
module BlockEditor {
  import opened Wrappers
  import opened Text
  import opened Credits

  datatype BlockType = TextBlock | ImageBlock
  datatype Content = TextContent(markdown: string) | ImageContent(imageUrl: string, imageSource: string)
  datatype Block = Block(id: string, kind: BlockType, content: Content, order: int)
  datatype Category = Official | Unofficial

  /** A new block's content: an empty markdown text or an empty image. */
  function EmptyContent(kind: BlockType): (c: Content)
    ensures kind == TextBlock <==> c.TextContent?
  {
    if kind == TextBlock then TextContent("") else ImageContent("", "")
  }

  /** `blocks.findIndex(block => block.id === id)`. */
  function FindIndex(blocks: seq<Block>, id: string): (r: int)
    ensures -1 <= r < |blocks|
    ensures r == -1 <==> forall j :: 0 <= j < |blocks| ==> blocks[j].id != id
    ensures r >= 0 ==> blocks[r].id == id && forall j :: 0 <= j < r ==> blocks[j].id != id
    decreases |blocks|
  {
    if |blocks| == 0 then -1
    else if blocks[0].id == id then 0
    else
      var k := FindIndex(blocks[1..], id);
      if k == -1 then -1 else k + 1
  }

  /** The list with every `order` set to its 1-based position. */
  function Renumbered(s: seq<Block>): (r: seq<Block>)
    ensures |r| == |s|
    ensures forall i :: 0 <= i < |s| ==> r[i] == s[i].(order := i + 1)
  {
    seq(|s|, i requires 0 <= i < |s| => s[i].(order := i + 1))
  }

  /** The orders are exactly 1..n. */
  predicate Sequential(s: seq<Block>) {
    forall i :: 0 <= i < |s| ==> s[i].order == i + 1
  }

  /** A block without its position, for comparing lists up to renumbering. */
  function Unnumbered(s: seq<Block>): (r: seq<Block>)
    ensures |r| == |s|
    ensures forall i :: 0 <= i < |s| ==> r[i] == s[i].(order := 0)
  {
    seq(|s|, i requires 0 <= i < |s| => s[i].(order := 0))
  }

  function Ids(s: seq<Block>): (r: seq<string>)
    ensures |r| == |s|
    ensures forall i :: 0 <= i < |s| ==> r[i] == s[i].id
  {
    seq(|s|, i requires 0 <= i < |s| => s[i].id)
  }

  /** `splice(k, 0, b)`. */
  function InsertAt(s: seq<Block>, k: nat, b: Block): seq<Block>
    requires k <= |s|
  {
    s[..k] + [b] + s[k..]
  }

  /** `addBlock(kind, afterBlockId)` on the list, with the id the editor generates. */
  function Added(blocks: seq<Block>, kind: BlockType, afterBlockId: Option<string>, newId: string): seq<Block> {
    var b := Block(newId, kind, EmptyContent(kind), |blocks| + 1);
    if TruthyString(afterBlockId) then
      Renumbered(InsertAt(blocks, FindIndex(blocks, afterBlockId.value) + 1, b))
    else
      blocks + [b]
  }

  /** `blocks.filter(block => block.id !== id)`. */
  function Without(s: seq<Block>, id: string): (r: seq<Block>)
    ensures |r| <= |s|
    ensures forall i :: 0 <= i < |r| ==> r[i].id != id
    decreases |s|
  {
    if |s| == 0 then []
    else if s[0].id == id then Without(s[1..], id)
    else [s[0]] + Without(s[1..], id)
  }

  /** How many blocks carry the id. */
  function CountId(s: seq<Block>, id: string): nat
    decreases |s|
  {
    if |s| == 0 then 0 else (if s[0].id == id then 1 else 0) + CountId(s[1..], id)
  }

  /** `deleteBlock(id)` on the list. */
  function Deleted(blocks: seq<Block>, id: string): seq<Block> {
    Renumbered(Without(blocks, id))
  }

  /** `updateBlockContent(id, content)` on the list. */
  function Updated(blocks: seq<Block>, id: string, content: Content): (r: seq<Block>)
    ensures |r| == |blocks|
  {
    seq(|blocks|, i requires 0 <= i < |blocks| =>
      if blocks[i].id == id then blocks[i].(content := content) else blocks[i])
  }

  /** The `forEach` that writes `block.order = index + 1` along the list. */
  method Renumber(s: seq<Block>) returns (r: seq<Block>)
    ensures r == Renumbered(s)
  {
    r := s;
    var i := 0;
    while i < |r|
      invariant 0 <= i <= |r| == |s|
      invariant forall j :: 0 <= j < i ==> r[j] == s[j].(order := j + 1)
      invariant forall j :: i <= j < |r| ==> r[j] == s[j]
    {
      r := r[i := r[i].(order := i + 1)];
      i := i + 1;
    }
  }

  // ---- properties of the list operations ----

  /** Appending keeps every block and puts the new one last with the next order, so 1..n stays 1..n+1. */
  lemma AppendShape(blocks: seq<Block>, kind: BlockType, afterBlockId: Option<string>, newId: string)
    requires !TruthyString(afterBlockId)
    ensures var r := Added(blocks, kind, afterBlockId, newId);
      |r| == |blocks| + 1 && r[..|blocks|] == blocks
      && r[|blocks|] == Block(newId, kind, EmptyContent(kind), |blocks| + 1)
      && (Sequential(blocks) ==> Sequential(r))
  {
    var r := Added(blocks, kind, afterBlockId, newId);
    assert r[..|blocks|] == blocks;
  }

  /**
   * Adding after a block puts the new block right behind the first block
   * with that id (at the front when there is none), keeps the others in
   * their order and renumbers the whole list to 1..n+1.
   */
  lemma InsertAfterShape(blocks: seq<Block>, kind: BlockType, afterBlockId: Option<string>, newId: string)
    requires TruthyString(afterBlockId)
    ensures var r := Added(blocks, kind, afterBlockId, newId);
      var k := FindIndex(blocks, afterBlockId.value) + 1;
      |r| == |blocks| + 1 && Sequential(r)
      && r[k] == Block(newId, kind, EmptyContent(kind), k + 1)
      && Unnumbered(r) == Unnumbered(blocks[..k]) + [Block(newId, kind, EmptyContent(kind), 0)] + Unnumbered(blocks[k..])
  {
    var k := FindIndex(blocks, afterBlockId.value) + 1;
    var b := Block(newId, kind, EmptyContent(kind), |blocks| + 1);
    var s := InsertAt(blocks, k, b);
    var r := Added(blocks, kind, afterBlockId, newId);
    assert r == Renumbered(s);
    assert s[k] == b;
    var lhs := Unnumbered(r);
    var rhs := Unnumbered(blocks[..k]) + [Block(newId, kind, EmptyContent(kind), 0)] + Unnumbered(blocks[k..]);
    assert |lhs| == |rhs|;
    forall i | 0 <= i < |lhs|
      ensures lhs[i] == rhs[i]
    {
      if i < k {
        assert s[i] == blocks[i];
      } else if i > k {
        assert s[i] == blocks[i - 1];
      }
    }
  }

  /** An id that is not in the list sends the new block to the front. */
  lemma InsertAfterMissingGoesFirst(blocks: seq<Block>, kind: BlockType, afterBlockId: Option<string>, newId: string)
    requires TruthyString(afterBlockId)
    requires forall j :: 0 <= j < |blocks| ==> blocks[j].id != afterBlockId.value
    ensures Added(blocks, kind, afterBlockId, newId)[0] == Block(newId, kind, EmptyContent(kind), 1)
  {
    InsertAfterShape(blocks, kind, afterBlockId, newId);
  }

  lemma {:induction false} WithoutConcat(a: seq<Block>, b: seq<Block>, id: string)
    ensures Without(a + b, id) == Without(a, id) + Without(b, id)
    decreases |a|
  {
    if |a| > 0 {
      assert (a + b)[1..] == a[1..] + b;
      WithoutConcat(a[1..], b, id);
    } else {
      assert a + b == b;
    }
  }

  lemma {:induction false} WithoutAbsent(s: seq<Block>, id: string)
    requires forall j :: 0 <= j < |s| ==> s[j].id != id
    ensures Without(s, id) == s
    decreases |s|
  {
    if |s| > 0 {
      WithoutAbsent(s[1..], id);
      assert s == [s[0]] + s[1..];
    }
  }

  lemma {:induction false} WithoutCount(s: seq<Block>, id: string)
    ensures |Without(s, id)| == |s| - CountId(s, id)
    decreases |s|
  {
    if |s| > 0 {
      WithoutCount(s[1..], id);
    }
  }

  /** Every block with another id survives the filter. */
  lemma {:induction false} WithoutKeeps(s: seq<Block>, id: string, b: Block)
    requires b in s && b.id != id
    ensures b in Without(s, id)
    decreases |s|
  {
    if s[0] != b {
      assert b in s[1..];
      WithoutKeeps(s[1..], id, b);
    }
  }

  /** The filter does not look at positions. */
  lemma {:induction false} WithoutUnnumbered(s: seq<Block>, id: string)
    ensures Unnumbered(Without(s, id)) == Without(Unnumbered(s), id)
    decreases |s|
  {
    if |s| > 0 {
      WithoutUnnumbered(s[1..], id);
      assert Unnumbered(s)[1..] == Unnumbered(s[1..]);
      if s[0].id != id {
        assert Unnumbered([s[0]] + Without(s[1..], id)) == [s[0].(order := 0)] + Unnumbered(Without(s[1..], id));
      }
    }
  }

  /** Renumbering sees only what is not a position. */
  lemma RenumberedByUnnumbered(s: seq<Block>, t: seq<Block>)
    requires Unnumbered(s) == Unnumbered(t)
    ensures Renumbered(s) == Renumbered(t)
  {
    forall i | 0 <= i < |s|
      ensures Renumbered(s)[i] == Renumbered(t)[i]
    {
      assert Unnumbered(s)[i] == Unnumbered(t)[i];
    }
  }

  /**
   * Deleting removes exactly the blocks with that id, keeps every other
   * block and renumbers the rest to 1..n.
   */
  lemma DeleteShape(blocks: seq<Block>, id: string)
    ensures var r := Deleted(blocks, id);
      Sequential(r)
      && |r| == |blocks| - CountId(blocks, id)
      && (forall i :: 0 <= i < |r| ==> r[i].id != id && r[i].(order := 0) in Unnumbered(blocks))
      && (forall i :: 0 <= i < |blocks| && blocks[i].id != id ==> blocks[i].(order := 0) in Unnumbered(r))
  {
    var w := Without(blocks, id);
    var r := Deleted(blocks, id);
    WithoutCount(blocks, id);
    WithoutUnnumbered(blocks, id);
    assert Unnumbered(r) == Unnumbered(w);
    forall i | 0 <= i < |r|
      ensures r[i].(order := 0) in Unnumbered(blocks)
    {
      assert Unnumbered(r)[i] == r[i].(order := 0);
      assert r[i].(order := 0) in Without(Unnumbered(blocks), id);
    }
    forall i | 0 <= i < |blocks| && blocks[i].id != id
      ensures blocks[i].(order := 0) in Unnumbered(r)
    {
      assert Unnumbered(blocks)[i] == blocks[i].(order := 0);
      WithoutKeeps(Unnumbered(blocks), id, blocks[i].(order := 0));
    }
  }

  lemma WithoutInserted(blocks: seq<Block>, k: nat, b: Block)
    requires k <= |blocks|
    requires forall j :: 0 <= j < |blocks| ==> blocks[j].id != b.id
    ensures Without(blocks[..k] + [b] + blocks[k..], b.id) == blocks
  {
    var front, back := blocks[..k], blocks[k..];
    WithoutConcat(front + [b], back, b.id);
    WithoutConcat(front, [b], b.id);
    WithoutAbsent(front, b.id);
    WithoutAbsent(back, b.id);
    assert [b][1..] == [];
    assert Without([b], b.id) == Without([], b.id);
    assert front + back == blocks;
  }

  /** Deleting from a renumbered list is deleting from the list. */
  lemma DeletedRenumbered(s: seq<Block>, id: string)
    ensures Deleted(Renumbered(s), id) == Deleted(s, id)
  {
    WithoutUnnumbered(Renumbered(s), id);
    WithoutUnnumbered(s, id);
    assert Unnumbered(Renumbered(s)) == Unnumbered(s);
    RenumberedByUnnumbered(Without(Renumbered(s), id), Without(s, id));
  }

  /** Deleting a block inserted at `k` under a fresh id, after renumbering, leaves the original list renumbered. */
  lemma InsertedThenDeleted(blocks: seq<Block>, k: nat, b: Block)
    requires k <= |blocks|
    requires forall j :: 0 <= j < |blocks| ==> blocks[j].id != b.id
    ensures Deleted(Renumbered(InsertAt(blocks, k, b)), b.id) == Renumbered(blocks)
  {
    var inserted := InsertAt(blocks, k, b);
    WithoutInserted(blocks, k, b);
    assert Without(inserted, b.id) == blocks;
    DeletedRenumbered(inserted, b.id);
  }

  /** Deleting a block just added (under a fresh id) leaves the original list, renumbered. */
  lemma AddThenDelete(blocks: seq<Block>, kind: BlockType, afterBlockId: Option<string>, newId: string)
    requires forall j :: 0 <= j < |blocks| ==> blocks[j].id != newId
    ensures Deleted(Added(blocks, kind, afterBlockId, newId), newId) == Renumbered(blocks)
  {
    var b := Block(newId, kind, EmptyContent(kind), |blocks| + 1);
    if TruthyString(afterBlockId) {
      InsertedThenDeleted(blocks, FindIndex(blocks, afterBlockId.value) + 1, b);
    } else {
      assert Added(blocks, kind, afterBlockId, newId) == blocks + [b];
      WithoutInserted(blocks, |blocks|, b);
      assert blocks[..|blocks|] + [b] + blocks[|blocks|..] == blocks + [b];
      assert Without(blocks + [b], newId) == blocks;
    }
  }

  /** Updating replaces the content of exactly the blocks with that id; ids, kinds and orders stay. */
  lemma UpdateShape(blocks: seq<Block>, id: string, content: Content)
    ensures var r := Updated(blocks, id, content);
      |r| == |blocks|
      && (forall i :: 0 <= i < |r| ==> r[i].id == blocks[i].id && r[i].kind == blocks[i].kind && r[i].order == blocks[i].order)
      && (forall i :: 0 <= i < |r| ==> r[i].content == if blocks[i].id == id then content else blocks[i].content)
      && (Sequential(blocks) ==> Sequential(r))
  {
  }

  /** Saving the same content twice is the same as once. */
  lemma UpdateIdempotent(blocks: seq<Block>, id: string, content: Content)
    ensures Updated(Updated(blocks, id, content), id, content) == Updated(blocks, id, content)
  {
  }

  // ---- the draft request ----

  /** A block as the draft body sends it: fields that do not apply to its kind are left undefined. */
  datatype DraftBlock = DraftBlock(kind: BlockType, order: int, markdown: Option<string>, imageUrl: Option<string>, imageSource: Option<string>)

  datatype Draft = Draft(
    title: string, subtitle: Option<string>, category: Category, status: string,
    brandName: string, brandUrl: Option<string>, credits: string, blocks: seq<DraftBlock>)

  datatype DraftRefusal = TitleRequired | ContentRequired | LoginRequired

  /** The PUT for a magazine being edited, or the POST that creates one. */
  datatype DraftRequest = Put(magazineId: int, token: string, body: Draft) | Post(token: string, body: Draft)

  /** Empty after trimming becomes `null`. */
  function NonEmptyOrNull(s: string): (r: Option<string>)
    ensures r.None? <==> IsBlank(s)
    ensures r.Some? ==> r.value == Trim(s)
  {
    var t := Trim(s);
    if t == "" then None else Some(t)
  }

  /** Each block's fields by kind; a content of the other shape leaves the field undefined, as the cast does. */
  function ToDraftBlock(b: Block): (d: DraftBlock)
    ensures d.kind == b.kind && d.order == b.order
    ensures d.markdown.Some? <==> b.kind == TextBlock && b.content.TextContent?
    ensures d.markdown.Some? ==> d.markdown.value == b.content.markdown
    ensures d.imageUrl.Some? <==> b.kind == ImageBlock && b.content.ImageContent?
    ensures d.imageSource.Some? <==> d.imageUrl.Some?
    ensures d.imageUrl.Some? ==> d.imageUrl.value == b.content.imageUrl && d.imageSource.value == b.content.imageSource
  {
    match b.content
    case TextContent(m) =>
      DraftBlock(b.kind, b.order, if b.kind == TextBlock then Some(m) else None, None, None)
    case ImageContent(u, src) =>
      if b.kind == ImageBlock then DraftBlock(b.kind, b.order, None, Some(u), Some(src))
      else DraftBlock(b.kind, b.order, None, None, None)
  }

  function ToDraftBlocks(blocks: seq<Block>): (r: seq<DraftBlock>)
    ensures |r| == |blocks|
    ensures forall i :: 0 <= i < |blocks| ==> r[i] == ToDraftBlock(blocks[i])
  {
    seq(|blocks|, i requires 0 <= i < |blocks| => ToDraftBlock(blocks[i]))
  }

  /** `isEditMode && magazineId`: editing, with an id that parses to a non-zero number. */
  function EditTarget(editMagazineId: Option<string>): (r: Option<int>)
    ensures r.Some? ==> TruthyString(editMagazineId) && r.value != 0
    ensures r.Some? ==> ParseIntAuto(editMagazineId.value) == Some(r.value)
  {
    if TruthyString(editMagazineId) && TruthyNumber(ParseIntAuto(editMagazineId.value))
    then ParseIntAuto(editMagazineId.value) else None
  }

  /** The editor's state: its form fields, its block list and the block-type menu. */
  class Editor {
    /** The `id` search parameter; the page is in edit mode when it is non-empty. */
    const editMagazineId: Option<string>
    var title: string
    var subtitle: string
    var brandName: string
    var brandUrl: string
    var category: Category
    var credits: string
    var blocks: seq<Block>
    var showBlockTypeMenu: bool
    var addAfterBlockId: Option<string>

    /** The initial form: empty fields, brand `Vinscent`, category `official`, no blocks and the menu closed. */
    constructor(editMagazineId: Option<string>)
      ensures this.editMagazineId == editMagazineId
      ensures title == "" && subtitle == "" && brandName == "Vinscent" && brandUrl == ""
      ensures category == Official && credits == "" && blocks == []
      ensures !showBlockTypeMenu && addAfterBlockId.None?
    {
      this.editMagazineId := editMagazineId;
      title := "";
      subtitle := "";
      brandName := "Vinscent";
      brandUrl := "";
      category := Official;
      credits := "";
      blocks := [];
      showBlockTypeMenu := false;
      addAfterBlockId := None;
    }

    /** `addBlock(kind, afterBlockId)`; `newId` is the id `generateBlockId` makes from the clock and a random number. */
    method AddBlock(kind: BlockType, afterBlockId: Option<string>, newId: string)
      modifies this
      ensures blocks == Added(old(blocks), kind, afterBlockId, newId)
      ensures !showBlockTypeMenu && addAfterBlockId.None?
      ensures title == old(title) && subtitle == old(subtitle) && brandName == old(brandName)
      ensures brandUrl == old(brandUrl) && category == old(category) && credits == old(credits)
    {
      var newBlock := Block(newId, kind, EmptyContent(kind), |blocks| + 1);
      if afterBlockId.Some? && afterBlockId.value != "" {
        var afterIndex := FindIndex(blocks, afterBlockId.value);
        var newBlocks := blocks[..afterIndex + 1] + [newBlock] + blocks[afterIndex + 1..];
        newBlocks := Renumber(newBlocks);
        blocks := newBlocks;
      } else {
        blocks := blocks + [newBlock];
      }
      showBlockTypeMenu := false;
      addAfterBlockId := None;
    }

    /** `deleteBlock(id)`. */
    method DeleteBlock(id: string)
      modifies this
      ensures blocks == Deleted(old(blocks), id)
      ensures unchanged(this`title, this`subtitle, this`brandName, this`brandUrl, this`category, this`credits)
      ensures unchanged(this`showBlockTypeMenu, this`addAfterBlockId)
    {
      var filtered := Without(blocks, id);
      blocks := Renumber(filtered);
    }

    /** `updateBlockContent(id, content)`. */
    method UpdateBlockContent(id: string, content: Content)
      modifies this
      ensures blocks == Updated(old(blocks), id, content)
      ensures unchanged(this`title, this`subtitle, this`brandName, this`brandUrl, this`category, this`credits)
      ensures unchanged(this`showBlockTypeMenu, this`addAfterBlockId)
    {
      blocks := Updated(blocks, id, content);
    }

    /** `addBlockAfter(id)`: remember where to insert and open the block-type menu. */
    method AddBlockAfter(id: string)
      modifies this
      ensures showBlockTypeMenu && addAfterBlockId == Some(id)
      ensures blocks == old(blocks)
      ensures unchanged(this`title, this`subtitle, this`brandName, this`brandUrl, this`category, this`credits)
    {
      addAfterBlockId := Some(id);
      showBlockTypeMenu := true;
    }

    /** `closeBlockTypeMenu()`. */
    method CloseBlockTypeMenu()
      modifies this
      ensures !showBlockTypeMenu && addAfterBlockId.None?
      ensures blocks == old(blocks)
      ensures unchanged(this`title, this`subtitle, this`brandName, this`brandUrl, this`category, this`credits)
    {
      showBlockTypeMenu := false;
      addAfterBlockId := None;
    }

    /** `addInitialBlock()`: one empty text block, and only into an empty list. */
    method AddInitialBlock(newId: string)
      modifies this
      ensures old(blocks) == [] ==> blocks == [Block(newId, TextBlock, TextContent(""), 1)]
      ensures old(blocks) == [] ==> !showBlockTypeMenu && addAfterBlockId.None?
      ensures unchanged(this`title, this`subtitle, this`brandName, this`brandUrl, this`category, this`credits)
      ensures old(blocks) != [] ==> unchanged(this)
    {
      if |blocks| == 0 {
        AddBlock(TextBlock, None, newId);
      }
    }

    /**
     * `handleDraftSave()` up to the request: refused with a blank title,
     * with no blocks, or without a stored login token; otherwise the draft
     * goes to the magazine's PUT in edit mode and to the create POST else.
     */
    function DraftSave(token: Option<string>): (r: Result<DraftRequest, DraftRefusal>)
      reads this
      ensures r == Failure(TitleRequired) <==> IsBlank(title)
      ensures r == Failure(ContentRequired) <==> !IsBlank(title) && blocks == []
      ensures r == Failure(LoginRequired) <==> !IsBlank(title) && blocks != [] && !TruthyString(token)
      ensures r.Success? ==> r.value.token == token.value
      ensures r.Success? ==> (r.value.Put? <==> EditTarget(editMagazineId).Some?)
      ensures r.Success? && r.value.Put? ==> r.value.magazineId == EditTarget(editMagazineId).value
      ensures r.Success? ==>
        var d := r.value.body;
        d.title == Trim(title) && d.title != "" && d.status == "draft"
        && d.subtitle == NonEmptyOrNull(subtitle) && d.brandName == Trim(brandName)
        && d.brandUrl == NonEmptyOrNull(brandUrl) && d.credits == Trim(credits)
        && d.category == category && d.blocks == ToDraftBlocks(blocks) && |d.blocks| >= 1
    {
      if IsBlank(title) then Failure(TitleRequired)
      else if |blocks| == 0 then Failure(ContentRequired)
      else
        var draft := Draft(Trim(title), NonEmptyOrNull(subtitle), category, "draft",
          Trim(brandName), NonEmptyOrNull(brandUrl), Trim(credits), ToDraftBlocks(blocks));
        if !TruthyString(token) then Failure(LoginRequired)
        else if EditTarget(editMagazineId).Some? then Success(Put(EditTarget(editMagazineId).value, token.value, draft))
        else Success(Post(token.value, draft))
    }

    /** `handleComplete()` lets the preview open only with a non-blank title and at least one block. */
    predicate MayComplete()
      reads this
    {
      !IsBlank(title) && blocks != []
    }
  }

  /** A block as the API returns it for an edited magazine. */
  datatype StoredBlock = StoredBlock(kind: BlockType, markdown: Option<string>, imageUrl: Option<string>, imageSource: Option<string>, order: Option<int>)

  /** `block-${now}-${index}`. */
  function LoadedBlockId(now: nat, index: nat): string {
    "block-" + NatToString(now) + "-" + NatToString(index)
  }

  /** The edit-mode conversion: missing strings become empty and a falsy order becomes the 1-based position. */
  function LoadBlocks(stored: seq<StoredBlock>, now: nat): (r: seq<Block>)
    ensures |r| == |stored|
    ensures forall i :: 0 <= i < |r| ==> r[i].id == LoadedBlockId(now, i) && r[i].kind == stored[i].kind
    ensures forall i :: 0 <= i < |r| ==> r[i].order == if TruthyNumber(stored[i].order) then stored[i].order.value else i + 1
    ensures forall i :: 0 <= i < |r| ==> (r[i].content.TextContent? <==> stored[i].kind == TextBlock)
  {
    seq(|stored|, i requires 0 <= i < |stored| =>
      var b := stored[i];
      Block(LoadedBlockId(now, i), b.kind,
        if b.kind == TextBlock then TextContent(b.markdown.GetOr(""))
        else ImageContent(b.imageUrl.GetOr(""), b.imageSource.GetOr("")),
        if TruthyNumber(b.order) then b.order.value else i + 1))
  }

  lemma NatToStringInjective(m: nat, n: nat)
    requires NatToString(m) == NatToString(n)
    ensures m == n
  {
    DecimalValueOfNatToString(m);
    DecimalValueOfNatToString(n);
  }

  /** The loaded blocks get pairwise distinct ids, so every later lookup by id finds one block. */
  lemma LoadedIdsDistinct(stored: seq<StoredBlock>, now: nat)
    ensures var r := LoadBlocks(stored, now);
      forall i, j :: 0 <= i < j < |r| ==> r[i].id != r[j].id
  {
    var r := LoadBlocks(stored, now);
    forall i, j | 0 <= i < j < |r|
      ensures r[i].id != r[j].id
    {
      var p := "block-" + NatToString(now) + "-";
      assert r[i].id == p + NatToString(i) && r[j].id == p + NatToString(j);
      if r[i].id == r[j].id {
        assert NatToString(i) == r[i].id[|p|..];
        assert NatToString(j) == r[j].id[|p|..];
        NatToStringInjective(i, j);
      }
    }
  }

  /** Blocks stored with orders 1..n load with those orders, and so do blocks stored without any. */
  lemma LoadBlocksSequential(stored: seq<StoredBlock>, now: nat)
    requires forall i :: 0 <= i < |stored| ==> stored[i].order.None? || stored[i].order == Some(i + 1)
    ensures Sequential(LoadBlocks(stored, now))
  {
  }

  /** What the editor hands to the preview page: its fields as they stand. */
  datatype PreviewData = PreviewData(
    title: string, subtitle: string, brandName: string, brandUrl: string, category: Category,
    credits: string, blocks: seq<Block>, editingMagazineId: Option<int>, isEditMode: bool)
}
