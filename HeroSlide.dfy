/**
 * The home page's hero slider (src/components/home/HeroSlide.tsx): a touch
 * swipe of more than 50 pixels moves to the next or previous slide through
 * the slide carousel of useSlideTimer, the image-loaded flags are kept per
 * slide, and the magazine shown falls back to the first one. The touch and
 * navigation handlers exist only when there is at least one magazine,
 * because the component renders its empty state otherwise.
 */
module HeroSlide {
  import opened Wrappers
  import opened Text
  import opened SlideTimer

  const SwipeThreshold: int := 50

  /** The move a finished touch makes: a drag of more than 50 pixels left is next, right is previous. */
  function SwipeOf(start: int, end: int): (d: Option<Direction>)
    ensures d == Some(Next) <==> start - end > SwipeThreshold
    ensures d == Some(Prev) <==> start - end < -SwipeThreshold
    ensures d.None? <==> -SwipeThreshold <= start - end <= SwipeThreshold
  {
    var distance := start - end;
    if distance > SwipeThreshold then Some(Next)
    else if distance < -SwipeThreshold then Some(Prev)
    else None
  }

  /** The slide timer runs only while not loading and with more than one magazine. */
  function AutoAdvance(loading: bool, count: int): (on: bool)
    ensures on <==> !loading && count > 1
  {
    CarouselTimerFlags(true, !loading && count > 1, count).1
  }

  /** `prev[index] = true` on a copy: past the end the array grows, and the holes read as not loaded. */
  function MarkLoaded(prev: seq<bool>, index: nat): (r: seq<bool>)
    ensures |r| == if index < |prev| then |prev| else index + 1
    ensures r[index]
    ensures forall j :: 0 <= j < |prev| && j != index ==> r[j] == prev[j]
    ensures forall j :: |prev| <= j < |r| && j != index ==> !r[j]
  {
    if index < |prev| then prev[index := true]
    else prev + seq(index - |prev|, _ => false) + [true]
  }

  class HeroSlide<M> {
    const magazines: seq<M>
    const carousel: SlideCarousel
    var isImageLoaded: seq<bool>
    var touchStart: Option<int>
    var touchEnd: Option<int>

    ghost predicate Valid()
      reads this, carousel
    {
      carousel.slidesCount == |magazines| && carousel.externalIndex.None?
    }

    constructor (magazines: seq<M>)
      ensures this.magazines == magazines && fresh(carousel) && Valid()
      ensures carousel.internalIndex == 0 && isImageLoaded == [] && touchStart.None? && touchEnd.None?
    {
      this.magazines := magazines;
      carousel := new SlideCarousel(|magazines|, None);
      isImageLoaded := [];
      touchStart := None;
      touchEnd := None;
    }

    /** `magazines[carousel.currentIndex] || magazines[0]`; nothing when there are no magazines. */
    function CurrentMagazine(): (m: Option<M>)
      reads this, carousel
      ensures m.None? <==> |magazines| == 0
      ensures m.Some? && 0 <= carousel.CurrentIndex() < |magazines| ==> m.value == magazines[carousel.CurrentIndex()]
      ensures m.Some? && !(0 <= carousel.CurrentIndex() < |magazines|) ==> m.value == magazines[0]
    {
      var i := carousel.CurrentIndex();
      if 0 <= i < |magazines| then Some(magazines[i])
      else if |magazines| > 0 then Some(magazines[0])
      else None
    }

    /** The effect on the magazine list: every slide starts not loaded. */
    method ResetImages()
      modifies this
      ensures |magazines| > 0 ==> isImageLoaded == seq(|magazines|, _ => false)
      ensures |magazines| == 0 ==> isImageLoaded == old(isImageLoaded)
      ensures touchStart == old(touchStart) && touchEnd == old(touchEnd)
    {
      if |magazines| > 0 {
        isImageLoaded := seq(|magazines|, _ => false);
      }
    }

    /** `handleImageLoad(index)`. */
    method ImageLoad(index: nat)
      modifies this
      ensures isImageLoaded == MarkLoaded(old(isImageLoaded), index)
      ensures touchStart == old(touchStart) && touchEnd == old(touchEnd)
    {
      isImageLoaded := MarkLoaded(isImageLoaded, index);
    }

    /** `handleTouchStart(x)`: a new touch forgets where the last one ended. */
    method TouchStart(x: int)
      modifies this
      ensures touchStart == Some(x) && touchEnd.None?
      ensures isImageLoaded == old(isImageLoaded)
    {
      touchEnd := None;
      touchStart := Some(x);
    }

    /** `handleTouchMove(x)`. */
    method TouchMove(x: int)
      modifies this
      ensures touchEnd == Some(x) && touchStart == old(touchStart)
      ensures isImageLoaded == old(isImageLoaded)
    {
      touchEnd := Some(x);
    }

    /**
     * `handleTouchEnd`: with a missing or zero coordinate (both falsy)
     * nothing happens; otherwise the swipe, if any, moves the slide, and
     * both coordinates are cleared.
     */
    method TouchEnd()
      requires Valid() && |magazines| > 0
      modifies this, carousel
      ensures Valid()
      ensures !TruthyNumber(old(touchStart)) || !TruthyNumber(old(touchEnd)) ==>
        touchStart == old(touchStart) && touchEnd == old(touchEnd) && carousel.changes == old(carousel.changes)
        && carousel.internalIndex == old(carousel.internalIndex)
      ensures TruthyNumber(old(touchStart)) && TruthyNumber(old(touchEnd)) ==>
        touchStart.None? && touchEnd.None?
        && var swipe := SwipeOf(old(touchStart).value, old(touchEnd).value);
        && (swipe == Some(Next) ==> carousel.internalIndex == NextIndex(old(carousel.internalIndex), |magazines|))
        && (swipe == Some(Prev) ==> carousel.internalIndex == PrevIndex(old(carousel.internalIndex), |magazines|))
        && (swipe.None? ==> carousel.internalIndex == old(carousel.internalIndex) && carousel.changes == old(carousel.changes))
      ensures isImageLoaded == old(isImageLoaded)
    {
      if !TruthyNumber(touchStart) || !TruthyNumber(touchEnd) {
        return;
      }
      var swipe := SwipeOf(touchStart.value, touchEnd.value);
      if swipe == Some(Next) {
        carousel.GoToNext();
      } else if swipe == Some(Prev) {
        carousel.GoToPrev();
      }
      touchStart := None;
      touchEnd := None;
    }

    /** `handleRightClick`. */
    method RightClick()
      requires Valid() && |magazines| > 0
      modifies carousel
      ensures Valid()
      ensures carousel.internalIndex == NextIndex(old(carousel.internalIndex), |magazines|)
    {
      carousel.GoToNext();
    }

    /** `handleLeftClick`. */
    method LeftClick()
      requires Valid() && |magazines| > 0
      modifies carousel
      ensures Valid()
      ensures carousel.internalIndex == PrevIndex(old(carousel.internalIndex), |magazines|)
    {
      carousel.GoToPrev();
    }
  }

  /** A left swipe of more than 50 pixels on slide `i` of `n` shows slide `i + 1`, or the first after the last. */
  method SwipeLeftFrom<M>(magazines: seq<M>, start: int, end: int) returns (shown: Option<M>)
    requires |magazines| > 1 && start > 0 && end > 0 && start - end > SwipeThreshold
    ensures shown == Some(magazines[1])
  {
    var hero := new HeroSlide(magazines);
    hero.TouchStart(start);
    hero.TouchMove(end);
    hero.TouchEnd();
    shown := hero.CurrentMagazine();
  }
}
