/**
 * Creating, updating and deleting a magazine
 * (src/lib/db/operations/magazines/management.ts). The two tables are the
 * fields of a `Database`: the `magazine` table as a map from id to row, the
 * `magazine_blocks` table as a sequence of rows in insertion order, and the
 * two auto-increment counters. The clock is a parameter.
 */
module Management {
  import opened Wrappers
  import opened Text
  import opened Credits
  import opened Sorting
  import opened MagazineHelpers

  /** `CreateMagazineData` and `UpdateMagazineData`: every field may be left out. */
  datatype MagazineInput = MagazineInput(
    title: Option<string>, subtitle: Option<string>, category: Option<string>, status: Option<string>,
    brandName: Option<string>, brandUrl: Option<string>, credits: Option<seq<Credit>>, blocks: Option<seq<BlockInput>>)

  /** A magazine read back with its blocks in `blockOrder` and its credits parsed. */
  datatype MagazineWithBlocks = MagazineWithBlocks(id: int, row: MagazineRow, blocks: seq<BlockRow>, credits: seq<Credit>)

  const TitleRequiredError: string := "Magazine title is required"
  const BrandRequiredError: string := "Brand name is required"
  const RetrieveUpdatedFailed: string := "Failed to retrieve updated magazine"
  const NotFound: string := "Magazine not found"
  /** The error of an insert that breaks the unique `(magazine_id, block_order)` index. */
  const DuplicateEntry: string := "Duplicate entry for key magazine_order_index"

  /** `v?.trim() || null`. */
  function TrimOrNull(v: Option<string>): (r: Option<string>)
    ensures r.None? <==> v.None? || IsBlank(v.value)
    ensures r.Some? ==> r.value == Trim(v.value)
  {
    if v.Some? && Trim(v.value) != "" then Some(Trim(v.value)) else None
  }

  /** `!v?.trim()`. */
  predicate Missing(v: Option<string>) {
    v.None? || IsBlank(v.value)
  }

  /** The row `createMagazine` inserts. */
  function NewRow(json: Json, data: MagazineInput, now: int): (row: MagazineRow)
    requires !Missing(data.title) && !Missing(data.brandName)
    ensures row.viewCount == 0 && row.createdDate == now && row.updatedDate == now
    ensures row.publishedDate.Some? <==> data.status == Some("published")
  {
    MagazineRow(
      Trim(data.title.value), TrimOrNull(data.subtitle), OrDefault(data.category, "official"),
      OrDefault(data.status, "draft"), if data.status == Some("published") then Some(now) else None,
      Trim(data.brandName.value), TrimOrNull(data.brandUrl), 0, CreditsColumn(json, data.credits), now, now)
  }

  /** The defaults of a new magazine. */
  lemma NewRowDefaults(json: Json, data: MagazineInput, now: int)
    requires !Missing(data.title) && !Missing(data.brandName)
    ensures var row := NewRow(json, data, now);
      && row.title == Trim(data.title.value) && row.title != "" && row.brandName == Trim(data.brandName.value) && row.brandName != ""
      && (data.category.None? ==> row.category == "official")
      && (data.status.None? ==> row.status == "draft" && row.publishedDate.None?)
      && (row.publishedDate.Some? <==> data.status == Some("published"))
      && row.viewCount == 0
      && (row.subtitle.None? <==> Missing(data.subtitle))
      && (row.brandUrl.None? <==> Missing(data.brandUrl))
  {
  }

  /** The row after `updateMagazine`: a field left out keeps its column. */
  function UpdatedRow(json: Json, prev: MagazineRow, data: MagazineInput, now: int): (row: MagazineRow)
    ensures row.viewCount == prev.viewCount && row.createdDate == prev.createdDate && row.updatedDate == now
  {
    MagazineRow(
      data.title.GetOr(prev.title),
      if data.subtitle.Some? then data.subtitle else prev.subtitle,
      data.category.GetOr(prev.category),
      data.status.GetOr(prev.status),
      if data.status == Some("published") then Some(now) else prev.publishedDate,
      data.brandName.GetOr(prev.brandName),
      if data.brandUrl.Some? then data.brandUrl else prev.brandUrl,
      prev.viewCount,
      if data.credits.Some? then CreditsColumn(json, data.credits) else prev.credits,
      prev.createdDate, now)
  }

  /** Update touches the publish date only when publishing, and the credits only when new ones are given. */
  lemma UpdatedRowKeeps(json: Json, prev: MagazineRow, data: MagazineInput, now: int)
    ensures var row := UpdatedRow(json, prev, data, now);
      && (data.status != Some("published") ==> row.publishedDate == prev.publishedDate)
      && (data.status == Some("published") ==> row.publishedDate == Some(now))
      && (data.credits.None? ==> row.credits == prev.credits)
      && row.viewCount == prev.viewCount && row.createdDate == prev.createdDate && row.updatedDate == now
      && (data == MagazineInput(None, None, None, None, None, None, None, data.blocks) ==> row == prev.(updatedDate := now))
  {
  }

  // ---- the block table ----

  function BlockOrderKey(b: BlockRow): int {
    b.blockOrder
  }

  /** The rows of one magazine, in table order. */
  function BlocksOf(table: seq<BlockRow>, magazineId: int): (r: seq<BlockRow>)
    ensures forall b :: b in r <==> b in table && b.magazineId == magazineId
    decreases |table|
  {
    if |table| == 0 then []
    else (if table[0].magazineId == magazineId then [table[0]] else []) + BlocksOf(table[1..], magazineId)
  }

  /** `DELETE FROM magazine_blocks WHERE magazine_id = id`. */
  function WithoutMagazine(table: seq<BlockRow>, magazineId: int): (r: seq<BlockRow>)
    ensures forall b :: b in r <==> b in table && b.magazineId != magazineId
    decreases |table|
  {
    if |table| == 0 then []
    else (if table[0].magazineId != magazineId then [table[0]] else []) + WithoutMagazine(table[1..], magazineId)
  }

  lemma {:induction false} BlocksOfAppend(a: seq<BlockRow>, b: seq<BlockRow>, magazineId: int)
    ensures BlocksOf(a + b, magazineId) == BlocksOf(a, magazineId) + BlocksOf(b, magazineId)
    decreases |a|
  {
    if |a| == 0 {
      assert a + b == b;
    } else {
      assert (a + b)[1..] == a[1..] + b;
      BlocksOfAppend(a[1..], b, magazineId);
    }
  }

  lemma {:induction false} BlocksOfWithout(table: seq<BlockRow>, magazineId: int, other: int)
    ensures BlocksOf(WithoutMagazine(table, magazineId), other) == if other == magazineId then [] else BlocksOf(table, other)
    decreases |table|
  {
    if |table| > 0 {
      BlocksOfWithout(table[1..], magazineId, other);
      var head := if table[0].magazineId != magazineId then [table[0]] else [];
      BlocksOfAppend(head, WithoutMagazine(table[1..], magazineId), other);
    }
  }

  lemma {:induction false} BlocksOfRows(firstId: int, magazineId: int, blocks: seq<BlockInput>, other: int)
    ensures BlocksOf(RowsOf(firstId, magazineId, blocks), other) == if other == magazineId then RowsOf(firstId, magazineId, blocks) else []
    decreases |blocks|
  {
    if |blocks| > 0 {
      var rows := RowsOf(firstId, magazineId, blocks);
      assert rows[1..] == RowsOf(firstId + 1, magazineId, blocks[1..]);
      BlocksOfRows(firstId + 1, magazineId, blocks[1..], other);
    }
  }

  /**
   * Replacing a magazine's blocks (delete, then insert) leaves that
   * magazine with exactly the new rows and every other magazine with the
   * rows it had.
   */
  lemma ReplaceBlocks(table: seq<BlockRow>, magazineId: int, firstId: int, blocks: seq<BlockInput>, other: int)
    ensures BlocksOf(WithoutMagazine(table, magazineId) + RowsOf(firstId, magazineId, blocks), other)
      == if other == magazineId then RowsOf(firstId, magazineId, blocks) else BlocksOf(table, other)
  {
    BlocksOfAppend(WithoutMagazine(table, magazineId), RowsOf(firstId, magazineId, blocks), other);
    BlocksOfWithout(table, magazineId, other);
    BlocksOfRows(firstId, magazineId, blocks, other);
  }

  /** The new rows keep the unique index: their orders differ from each other and from the magazine's rows already there. */
  predicate AllowsInsert(table: seq<BlockRow>, magazineId: int, blocks: seq<BlockInput>) {
    && (forall i, j :: 0 <= i < j < |blocks| ==> blocks[i].order != blocks[j].order)
    && (forall i, k :: 0 <= i < |blocks| && 0 <= k < |table| && table[k].magazineId == magazineId ==> table[k].blockOrder != blocks[i].order)
  }

  lemma InsertKeepsUnique(table: seq<BlockRow>, firstId: int, magazineId: int, blocks: seq<BlockInput>)
    requires OrdersUnique(table) && AllowsInsert(table, magazineId, blocks)
    ensures OrdersUnique(table + RowsOf(firstId, magazineId, blocks))
  {
    var t := table + RowsOf(firstId, magazineId, blocks);
    forall i, j | 0 <= i < j < |t|
      ensures t[i].magazineId != t[j].magazineId || t[i].blockOrder != t[j].blockOrder
    {
      if j >= |table| && i >= |table| {
        assert t[i] == RowOf(firstId + i - |table|, magazineId, blocks[i - |table|]);
      } else if j >= |table| {
        assert t[j] == RowOf(firstId + j - |table|, magazineId, blocks[j - |table|]);
      }
    }
  }

  lemma {:induction false} WithoutKeepsUnique(table: seq<BlockRow>, magazineId: int)
    requires OrdersUnique(table)
    ensures OrdersUnique(WithoutMagazine(table, magazineId))
    ensures forall k :: 0 <= k < |WithoutMagazine(table, magazineId)| ==> WithoutMagazine(table, magazineId)[k].magazineId != magazineId
    decreases |table|
  {
    if |table| > 0 {
      WithoutKeepsUnique(table[1..], magazineId);
      var rest := WithoutMagazine(table[1..], magazineId);
      if table[0].magazineId != magazineId {
        var t := [table[0]] + rest;
        forall i, j | 0 <= i < j < |t|
          ensures t[i].magazineId != t[j].magazineId || t[i].blockOrder != t[j].blockOrder
        {
          if i == 0 {
            assert t[j] in rest;
            assert t[j] in table[1..];
            var k :| 0 <= k < |table[1..]| && table[1..][k] == t[j];
            assert table[k + 1] == t[j];
          }
        }
      }
    }
  }

  /** The magazine ids of the blocks a table holds, below the counter. */
  predicate IdsBelow(table: seq<BlockRow>, next: int) {
    forall k :: 0 <= k < |table| ==> table[k].id < next
  }

  class Database {
    var magazines: map<int, MagazineRow>
    var blocks: seq<BlockRow>
    var nextMagazineId: int
    var nextBlockId: int
    const json: Json

    ghost predicate Valid()
      reads this
    {
      && OrdersUnique(blocks)
      && (forall id :: id in magazines ==> id < nextMagazineId)
      && IdsBelow(blocks, nextBlockId)
    }

    constructor(json: Json)
      ensures Valid() && this.json == json
      ensures magazines == map[] && blocks == [] && nextMagazineId == 1 && nextBlockId == 1
    {
      this.json := json;
      magazines := map[];
      blocks := [];
      nextMagazineId := 1;
      nextBlockId := 1;
    }

    /** `getMagazineById(id)`: the row, its blocks by `blockOrder` and its parsed credits. */
    function Read(id: int): (r: Option<MagazineWithBlocks>)
      reads this
      ensures r.None? <==> id !in magazines
    {
      if id in magazines then
        Some(MagazineWithBlocks(id, magazines[id], SortByKey(BlocksOf(blocks, id), BlockOrderKey), ParseCreditsColumn(json, magazines[id].credits)))
      else None
    }

    /** `insertMagazineBlocks(magazineId, blocks)`: nothing for an absent or empty list, else one row per block, all or none. */
    method InsertMagazineBlocks(magazineId: int, input: Option<seq<BlockInput>>) returns (ok: bool)
      requires Valid()
      modifies this
      ensures Valid()
      ensures magazines == old(magazines) && nextMagazineId == old(nextMagazineId)
      ensures input.None? || |input.value| == 0 ==> ok && blocks == old(blocks) && nextBlockId == old(nextBlockId)
      ensures input.Some? && |input.value| > 0 ==>
        && (ok <==> AllowsInsert(old(blocks), magazineId, input.value))
        && (ok ==> blocks == old(blocks) + RowsOf(old(nextBlockId), magazineId, input.value) && nextBlockId == old(nextBlockId) + |input.value|)
        && (!ok ==> blocks == old(blocks) && nextBlockId == old(nextBlockId))
    {
      if input.None? || |input.value| == 0 {
        return true;
      }
      if !AllowsInsert(blocks, magazineId, input.value) {
        return false;
      }
      var rows := RowsOf(nextBlockId, magazineId, input.value);
      InsertKeepsUnique(blocks, nextBlockId, magazineId, input.value);
      blocks := blocks + rows;
      nextBlockId := nextBlockId + |input.value|;
      return true;
    }

    /**
     * `createMagazine(data)`: refuses a blank title, then a blank brand
     * name, before writing anything; otherwise inserts the row and then the
     * blocks. When the block insert breaks the unique index the magazine row
     * stays behind and the call fails.
     */
    method CreateMagazine(data: MagazineInput, now: int) returns (r: Result<MagazineWithBlocks, string>)
      requires Valid()
      modifies this
      ensures Valid()
      ensures Missing(data.title) ==> r == Failure(TitleRequiredError) && unchanged(this)
      ensures !Missing(data.title) && Missing(data.brandName) ==> r == Failure(BrandRequiredError) && unchanged(this)
      ensures !Missing(data.title) && !Missing(data.brandName) ==> Created(old(magazines), old(blocks), old(nextMagazineId), old(nextBlockId), data, now, r)
    {
      if Missing(data.title) {
        return Failure(TitleRequiredError);
      }
      if Missing(data.brandName) {
        return Failure(BrandRequiredError);
      }
      r := InsertNew(data, now);
    }

    /**
     * What a successful `createMagazine` leaves: the row under the next id,
     * then the blocks when they keep the unique index, the result being the
     * magazine read back; otherwise the failed insert with the row left behind.
     */
    ghost predicate Created(magazines0: map<int, MagazineRow>, blocks0: seq<BlockRow>, nextMagazineId0: int, nextBlockId0: int,
                            data: MagazineInput, now: int, r: Result<MagazineWithBlocks, string>)
      requires !Missing(data.title) && !Missing(data.brandName)
      reads this
    {
      var id := nextMagazineId0;
      && id !in magazines0
      && magazines == magazines0[id := NewRow(json, data, now)]
      && nextMagazineId == id + 1
      && (r.Success? ==> r.value == Read(id).value)
      && (data.blocks.None? || |data.blocks.value| == 0 ==> r.Success? && blocks == blocks0)
      && (data.blocks.Some? && |data.blocks.value| > 0 ==>
            if AllowsInsert(blocks0, id, data.blocks.value)
            then r.Success? && blocks == blocks0 + RowsOf(nextBlockId0, id, data.blocks.value)
            else r == Failure(DuplicateEntry) && blocks == blocks0)
    }

    /** `db.insert(magazines).values(row).returning()`: the row under the next id. */
    method InsertMagazineRow(row: MagazineRow) returns (id: int)
      requires Valid()
      modifies this
      ensures Valid()
      ensures id == old(nextMagazineId) && id !in old(magazines)
      ensures magazines == old(magazines)[id := row] && nextMagazineId == id + 1
      ensures blocks == old(blocks) && nextBlockId == old(nextBlockId)
    {
      id := nextMagazineId;
      magazines := magazines[id := row];
      nextMagazineId := id + 1;
    }

    /** The writing part of `createMagazine`, once title and brand name are there. */
    method InsertNew(data: MagazineInput, now: int) returns (r: Result<MagazineWithBlocks, string>)
      requires Valid() && !Missing(data.title) && !Missing(data.brandName)
      modifies this
      ensures Valid()
      ensures Created(old(magazines), old(blocks), old(nextMagazineId), old(nextBlockId), data, now, r)
    {
      var id := InsertMagazineRow(NewRow(json, data, now));
      var ok := InsertMagazineBlocks(id, data.blocks);
      if !ok {
        return Failure(DuplicateEntry);
      }
      assert id in magazines;
      r := Success(Read(id).value);
    }

    /**
     * `updateMagazine(id, data)`: updates the given columns, deletes every
     * block of the magazine and inserts the new list. The blocks are
     * replaced even when no magazine has that id; the call then fails when
     * it reads the magazine back.
     */
    method UpdateMagazine(id: int, data: MagazineInput, now: int) returns (r: Result<MagazineWithBlocks, string>)
      requires Valid()
      modifies this
      ensures Valid()
      ensures magazines == if id in old(magazines) then old(magazines)[id := UpdatedRow(json, old(magazines)[id], data, now)] else old(magazines)
      ensures nextMagazineId == old(nextMagazineId)
      ensures data.blocks.None? || |data.blocks.value| == 0 ==>
        blocks == WithoutMagazine(old(blocks), id) && (r.Success? <==> id in old(magazines))
      ensures data.blocks.Some? && |data.blocks.value| > 0 ==>
        if AllowsInsert(WithoutMagazine(old(blocks), id), id, data.blocks.value)
        then blocks == WithoutMagazine(old(blocks), id) + RowsOf(old(nextBlockId), id, data.blocks.value)
          && (r.Success? <==> id in old(magazines))
        else blocks == WithoutMagazine(old(blocks), id) && r == Failure(DuplicateEntry)
      ensures r.Success? ==> r.value == Read(id).value
      ensures r.Failure? && r != Failure(DuplicateEntry) ==> r == Failure(RetrieveUpdatedFailed) && id !in magazines
    {
      if id in magazines {
        magazines := magazines[id := UpdatedRow(json, magazines[id], data, now)];
      }
      WithoutKeepsUnique(blocks, id);
      blocks := WithoutMagazine(blocks, id);
      assert IdsBelow(blocks, nextBlockId) by {
        forall k | 0 <= k < |blocks| ensures blocks[k].id < nextBlockId {
          assert blocks[k] in old(blocks);
        }
      }
      var ok := InsertMagazineBlocks(id, data.blocks);
      if !ok {
        return Failure(DuplicateEntry);
      }
      var read := Read(id);
      if read.None? {
        return Failure(RetrieveUpdatedFailed);
      }
      r := Success(read.value);
    }

    /** `deleteMagazine(id)`: deletes the magazine's blocks, then the row; it succeeds iff a row was deleted. */
    method DeleteMagazine(id: int) returns (r: Result<(), string>)
      requires Valid()
      modifies this
      ensures Valid()
      ensures blocks == WithoutMagazine(old(blocks), id)
      ensures magazines == old(magazines) - {id}
      ensures r.Success? <==> id in old(magazines)
      ensures r.Failure? ==> r.error == NotFound
      ensures nextMagazineId == old(nextMagazineId) && nextBlockId == old(nextBlockId)
    {
      WithoutKeepsUnique(blocks, id);
      blocks := WithoutMagazine(blocks, id);
      assert IdsBelow(blocks, nextBlockId) by {
        forall k | 0 <= k < |blocks| ensures blocks[k].id < nextBlockId {
          assert blocks[k] in old(blocks);
        }
      }
      if id in magazines {
        magazines := magazines - {id};
        r := Success(());
      } else {
        r := Failure(NotFound);
      }
    }
  }

  /** After a delete, the magazine and all of its blocks are gone and nothing can be read back. */
  lemma DeleteLeavesNoBlocks(table: seq<BlockRow>, id: int)
    ensures BlocksOf(WithoutMagazine(table, id), id) == []
  {
    BlocksOfWithout(table, id, id);
  }
}
