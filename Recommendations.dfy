/**
 * The "latest magazines" block under a magazine page
 * (src/components/features/magazine-detail/MagazineRecommendations.tsx):
 * it asks for three more cards than it shows, drops the magazine being
 * read, and shows the first `maxItems` of what remains.
 */
module Recommendations {
  import opened Wrappers
  import opened Text

  datatype Card = Card(id: int, title: string)

  const DefaultMaxItems: int := 3

  /** The request behind the block: page 1, `maxItems + 3` cards, the category passed through. */
  datatype CardsRequest = CardsRequest(page: int, limit: int, category: Option<string>)

  function RequestFor(maxItems: Option<int>, category: Option<string>): (r: CardsRequest)
    ensures r.page == 1 && r.category == category
    ensures r.limit == maxItems.GetOr(DefaultMaxItems) + 3
  {
    CardsRequest(1, maxItems.GetOr(DefaultMaxItems) + 3, category)
  }

  /** `magazines.filter(m => m.id !== id)`. */
  function Exclude(cards: seq<Card>, id: int): (r: seq<Card>)
    ensures |r| <= |cards|
    ensures forall c :: c in r <==> c in cards && c.id != id
    decreases |cards|
  {
    if |cards| == 0 then []
    else
      var rest := Exclude(cards[1..], id);
      assert forall c :: c in cards <==> c == cards[0] || c in cards[1..];
      if cards[0].id != id then [cards[0]] + rest else rest
  }

  /**
   * `filteredMagazines`: no data gives nothing; a truthy current id is left
   * out; then `slice(0, maxItems)`.
   */
  function Shown(data: Option<seq<Card>>, currentId: Option<int>, maxItems: Option<int>): (r: seq<Card>)
    ensures data.None? ==> r == []
    ensures data.Some? ==> r <= Pool(data.value, currentId)
  {
    if data.None? then []
    else JsSlice(Pool(data.value, currentId), Some(0), Some(maxItems.GetOr(DefaultMaxItems)))
  }

  /** The cards left once the current magazine is dropped, before the cut. */
  function Pool(data: seq<Card>, currentId: Option<int>): seq<Card> {
    if TruthyNumber(currentId) then Exclude(data, currentId.value) else data
  }

  /**
   * The block shows a prefix of the remaining cards: `maxItems` of them,
   * or all when fewer remain (a negative `maxItems` counts from the end,
   * as `slice` does); never the magazine being read; nothing without data.
   */
  lemma ShownIsPrefix(data: Option<seq<Card>>, currentId: Option<int>, maxItems: Option<int>)
    ensures data.None? ==> Shown(data, currentId, maxItems) == []
    ensures data.Some? ==> var pool := Pool(data.value, currentId); var n := maxItems.GetOr(DefaultMaxItems);
      && Shown(data, currentId, maxItems) <= pool
      && (0 <= n <= |pool| ==> |Shown(data, currentId, maxItems)| == n)
      && (n > |pool| ==> Shown(data, currentId, maxItems) == pool)
      && (n < 0 ==> |Shown(data, currentId, maxItems)| == if |pool| + n < 0 then 0 else |pool| + n)
    ensures TruthyNumber(currentId) ==> forall c :: c in Shown(data, currentId, maxItems) ==> c.id != currentId.value
  {
    if data.Some? {
      var pool := Pool(data.value, currentId);
      var r := Shown(data, currentId, maxItems);
      assert forall c :: c in r ==> c in pool;
    }
  }

  /** An id of 0 or none excludes nothing: the block is the first cards of the data as they came. */
  lemma FalsyIdExcludesNothing(data: seq<Card>, currentId: Option<int>)
    requires !TruthyNumber(currentId)
    ensures Shown(Some(data), currentId, None) == JsSlice(data, Some(0), Some(DefaultMaxItems))
  {
  }

  /** Three extra cards are enough: after dropping one id from a full page of `maxItems + 3` distinct cards, `maxItems` remain to show. */
  lemma {:induction false} ExtraCardsSuffice(data: seq<Card>, currentId: int, maxItems: nat)
    requires |data| == maxItems + 3
    requires forall i, j :: 0 <= i < j < |data| ==> data[i].id != data[j].id
    ensures |Exclude(data, currentId)| >= maxItems + 2
  {
    ExcludeDropsAtMostOne(data, currentId);
  }

  /** With distinct ids, excluding one id removes at most one card. */
  lemma {:induction false} ExcludeDropsAtMostOne(data: seq<Card>, id: int)
    requires forall i, j :: 0 <= i < j < |data| ==> data[i].id != data[j].id
    ensures |Exclude(data, id)| >= |data| - 1
    ensures (forall c :: c in data ==> c.id != id) ==> Exclude(data, id) == data
    decreases |data|
  {
    if |data| > 0 {
      ExcludeDropsAtMostOne(data[1..], id);
      if data[0].id == id {
        ExcludeKeepsAll(data[1..], id);
      } else {
        assert data == [data[0]] + data[1..];
      }
    }
  }

  /** A list without the id passes the filter whole. */
  lemma {:induction false} ExcludeKeepsAll(data: seq<Card>, id: int)
    requires forall c :: c in data ==> c.id != id
    ensures Exclude(data, id) == data
    decreases |data|
  {
    if |data| > 0 {
      ExcludeKeepsAll(data[1..], id);
      assert data == [data[0]] + data[1..];
    }
  }
}
