/**
 * The home page's 3D magazine carousel (src/components/home/MagazineCarousel3D.tsx):
 * sixteen cells on a ring, an unbounded `selectedIndex` whose residue mod 16
 * is the centre cell, rotation by one step from the buttons or a mouse
 * swipe, and rotation along the shorter way round when a side cell is
 * clicked. `isMobile` is `None` before the first measurement, as the
 * component's `null`.
 */
module Carousel3D {
  import opened Wrappers
  import opened Text

  const CellCount: int := 16
  const SwipeThreshold: int := 30
  const ClickTimeThreshold: int := 200

  function Abs(x: int): int { if x < 0 then -x else x }

  /** `((i % 16) + 16) % 16` with JavaScript's `%`: the centre cell of the ring. */
  function NormalizedIndex(i: int): (r: int)
    ensures 0 <= r < CellCount
    ensures r == i % CellCount
  {
    JsRem(JsRem(i, CellCount) + CellCount, CellCount)
  }

  /**
   * `getShortestPath(current, target)` as written: the distances are taken
   * between `target` and the raw `current`, which is only the ring position
   * while `current` lies in [0, 16).
   */
  function ShortestPathAsWritten(current: int, target: int): (r: int)
    ensures r % CellCount == target % CellCount
  {
    var direct := Abs(target - current);
    var reverse := CellCount - direct;
    if direct <= reverse then target
    else if target > current then current - reverse
    else current + reverse
  }

  /** On the ring itself the written rule takes the shorter way, by `min(d, 16 - d)` steps, and the direct way on a tie. */
  lemma ShortestPathOnRing(current: int, target: int)
    requires 0 <= current < CellCount && 0 <= target < CellCount
    ensures var r := ShortestPathAsWritten(current, target);
      var d := Abs(target - current);
      && Abs(r - current) == (if d <= CellCount - d then d else CellCount - d)
      && Abs(r - current) <= 8
      && (d == 8 ==> r == target)
  {
  }

  /** Past the first lap it can go the long way: from 25 (cell 9) to cell 0 it turns 9 steps back, where 7 steps forward reach cell 0 too. */
  lemma ShortestPathLongWay()
    ensures ShortestPathAsWritten(25, 0) == 16
    ensures 32 % CellCount == 0 && Abs(32 - 25) < Abs(16 - 25)
    ensures ShortestPathAsWritten(32, 1) == 17 && Abs(17 - 32) == 15 && 33 % CellCount == 1
  {
  }

  /** The rule applied to the ring position of `current`, then moved back to `current`'s lap. */
  function ShortestPath(current: int, target: int): (r: int)
    requires 0 <= target < CellCount
    ensures r % CellCount == target
    ensures Abs(r - current) <= 8
    ensures 0 <= current < CellCount ==> r == ShortestPathAsWritten(current, target)
  {
    var n := NormalizedIndex(current);
    var q := current / CellCount;
    var s := ShortestPathAsWritten(n, target);
    ShortestPathOnRing(n, target);
    LapShift(q, s);
    OnRing(target);
    assert current == q * CellCount + n;
    if 0 <= current < CellCount then
      OnRing(current);
      s
    else
      q * CellCount + s
  }

  /** An index on the ring is its own cell, in lap 0. */
  lemma OnRing(i: int)
    requires 0 <= i < CellCount
    ensures i / CellCount == 0 && i % CellCount == i
  {
  }

  /** Moving a whole number of laps keeps the cell. */
  lemma LapShift(q: int, a: int)
    ensures (q * CellCount + a) % CellCount == a % CellCount
  {
  }

  /** No index that shows the target cell is closer to `current` than the one chosen. */
  lemma {:induction false} ShortestPathIsShortest(current: int, target: int, x: int)
    requires 0 <= target < CellCount
    requires x % CellCount == target
    ensures Abs(ShortestPath(current, target) - current) <= Abs(x - current)
  {
    var r := ShortestPath(current, target);
    assert x == (x / CellCount) * CellCount + target;
    assert r == (r / CellCount) * CellCount + target;
    if x / CellCount > r / CellCount {
      assert x - r >= CellCount;
    } else if x / CellCount < r / CellCount {
      assert r - x >= CellCount;
    }
  }

  /** Cell `idx` shows `magazines[idx % len]`, and nothing when there are none. */
  function CellMagazine<M>(magazines: seq<M>, idx: nat): (m: Option<M>)
    ensures m.None? <==> |magazines| == 0
    ensures m.Some? ==> m.value == magazines[idx % |magazines|]
  {
    if |magazines| > 0 then Some(magazines[idx % |magazines|]) else None
  }

  /** Every magazine is shown on some cell when there are at most sixteen. */
  lemma EveryMagazineShown<M>(magazines: seq<M>, i: nat)
    requires i < |magazines| <= CellCount
    ensures CellMagazine(magazines, i) == Some(magazines[i])
  {
  }

  /** A mouse-up counts as a swipe iff it moved at least 30 pixels and took more than 200 ms. */
  predicate IsSwipe(startX: int, endX: int, startTime: int, endTime: int) {
    Abs(startX - endX) >= SwipeThreshold && endTime - startTime > ClickTimeThreshold
  }

  datatype Direction = Prev | Next

  /** Dragging leftwards turns to the next cell, anything else to the previous one. */
  function SwipeDirection(startX: int, endX: int): (d: Direction)
    ensures d == Next <==> startX > endX
  {
    if startX > endX then Next else Prev
  }

  /** What a click on a cell does: nothing, open the magazine, or turn the ring. */
  datatype ClickOutcome = Ignored | Opened | Rotated(to: int)

  class Carousel {
    var selectedIndex: int
    var isMobile: Option<bool>
    var startX: int
    var startTime: int
    var isDragging: bool

    constructor ()
      ensures selectedIndex == 0 && isMobile.None? && startX == 0 && startTime == 0 && !isDragging
    {
      selectedIndex := 0;
      isMobile := None;
      startX := 0;
      startTime := 0;
      isDragging := false;
    }

    /** The window measurement: narrower than 768 pixels is mobile. */
    method Measure(innerWidth: int)
      modifies this
      ensures isMobile == Some(innerWidth < 768)
      ensures selectedIndex == old(selectedIndex) && startX == old(startX)
      ensures startTime == old(startTime) && isDragging == old(isDragging)
    {
      isMobile := Some(innerWidth < 768);
    }

    function CenterIndex(): (c: int)
      reads this
      ensures 0 <= c < CellCount && c == selectedIndex % CellCount
    {
      NormalizedIndex(selectedIndex)
    }

    /** `rotateCarousel(direct)`: one step either way, and nothing at all on mobile. */
    method Rotate(direct: Direction)
      modifies this
      ensures isMobile == Some(true) ==> selectedIndex == old(selectedIndex)
      ensures isMobile != Some(true) ==> selectedIndex == old(selectedIndex) + (if direct == Prev then -1 else 1)
      ensures isMobile == old(isMobile) && startX == old(startX)
      ensures startTime == old(startTime) && isDragging == old(isDragging)
    {
      if isMobile == Some(true) {
        return;
      }
      selectedIndex := if direct == Prev then selectedIndex - 1 else selectedIndex + 1;
    }

    /** `handleNavButtonClick`: a button without a direction does nothing. */
    method NavButtonClick(direct: Option<Direction>)
      modifies this
      ensures isMobile != Some(true) && direct.Some? ==> selectedIndex == old(selectedIndex) + (if direct.value == Prev then -1 else 1)
      ensures isMobile == Some(true) || direct.None? ==> selectedIndex == old(selectedIndex)
      ensures isMobile == old(isMobile) && startX == old(startX)
      ensures startTime == old(startTime) && isDragging == old(isDragging)
    {
      if isMobile == Some(true) {
        return;
      }
      if direct.Some? {
        Rotate(direct.value);
      }
    }

    /** `handleMouseDown`: the mouse handlers are attached only once the screen is known to be a desktop one. */
    method MouseDown(x: int, now: int)
      modifies this
      ensures isMobile == Some(false) ==> startX == x && startTime == now && !isDragging
      ensures isMobile != Some(false) ==> startX == old(startX) && startTime == old(startTime) && isDragging == old(isDragging)
      ensures selectedIndex == old(selectedIndex) && isMobile == old(isMobile)
    {
      if isMobile != Some(false) {
        return;
      }
      startX := x;
      startTime := now;
      isDragging := false;
    }

    /** `handleMouseUp`: a swipe turns the ring one step and marks a drag, so the click that follows is ignored. */
    method MouseUp(x: int, now: int)
      modifies this
      ensures isMobile != Some(false) ==> selectedIndex == old(selectedIndex) && isDragging == old(isDragging)
      ensures isMobile == Some(false) && IsSwipe(old(startX), x, old(startTime), now) ==>
        selectedIndex == old(selectedIndex) + (if SwipeDirection(old(startX), x) == Prev then -1 else 1) && isDragging
      ensures isMobile == Some(false) && !IsSwipe(old(startX), x, old(startTime), now) ==>
        selectedIndex == old(selectedIndex) && !isDragging
      ensures isMobile == old(isMobile) && startX == old(startX) && startTime == old(startTime)
    {
      if isMobile != Some(false) {
        return;
      }
      if IsSwipe(startX, x, startTime, now) {
        Rotate(SwipeDirection(startX, x));
        isDragging := true;
      } else {
        isDragging := false;
      }
    }

    /** The timeout 100 ms after a swipe that ends the drag. */
    method DragTimeout()
      modifies this
      ensures !isDragging
      ensures selectedIndex == old(selectedIndex) && isMobile == old(isMobile)
      ensures startX == old(startX) && startTime == old(startTime)
    {
      isDragging := false;
    }

    /**
     * `handleCellClick(cell)`: ignored during a drag; the centre cell opens
     * its magazine; any other cell is brought to the centre by
     * `getShortestPath` on the raw `selectedIndex`, which takes the shorter
     * way while the index is still on the first lap and can take the long
     * way (up to 15 steps) past it.
     */
    method CellClick(cell: int) returns (outcome: ClickOutcome)
      requires 0 <= cell < CellCount
      modifies this
      ensures old(isDragging) ==> outcome == Ignored && selectedIndex == old(selectedIndex)
      ensures !old(isDragging) && cell == old(CenterIndex()) ==> outcome == Opened && selectedIndex == old(selectedIndex)
      ensures !old(isDragging) && cell != old(CenterIndex()) ==>
        outcome == Rotated(selectedIndex) && selectedIndex == ShortestPathAsWritten(old(selectedIndex), cell)
      ensures CenterIndex() == (if outcome.Rotated? then cell else old(CenterIndex()))
      ensures outcome.Rotated? && 0 <= old(selectedIndex) < CellCount ==> selectedIndex == ShortestPath(old(selectedIndex), cell)
      ensures 0 <= old(selectedIndex) < CellCount ==> Abs(selectedIndex - old(selectedIndex)) <= 8
      ensures isMobile == old(isMobile) && startX == old(startX)
      ensures startTime == old(startTime) && isDragging == old(isDragging)
    {
      if isDragging {
        return Ignored;
      }
      if cell == CenterIndex() {
        return Opened;
      }
      selectedIndex := ShortestPathAsWritten(selectedIndex, cell);
      if 0 <= old(selectedIndex) < CellCount {
        ShortestPathOnRing(old(selectedIndex), cell);
      }
      outcome := Rotated(selectedIndex);
    }
  }
}
