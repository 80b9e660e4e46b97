/**
 * The slide timer and slide index of the home hero (src/hooks/useSlideTimer.ts).
 * `useSlideTimer`'s state and refs become the fields of `SlideTimer`; the
 * 16 ms interval is `ticking` plus a `Tick(now)` method that the caller runs
 * as the interval would, and `Date.now()` is the `now` argument of each
 * action. `useSlideCarousel`'s index becomes `SlideCarousel`, and each call
 * of `onSlideChange` is recorded in `changes`.
 */
module SlideTimer {
  import opened Wrappers
  import opened Text

  class SlideTimer {
    const interval: int
    var enabled: bool
    var isRunning: bool
    var isPaused: bool
    var elapsed: int
    /** Whether an interval is installed (`timerRef.current !== null`). */
    var ticking: bool
    var startTime: int
    var pausedTime: int
    var lastUpdate: int
    /** How many times `onComplete` has been called. */
    var completions: nat

    /** An installed interval belongs to a running, unpaused timer, and a paused timer has none. */
    ghost predicate Valid()
      reads this
    {
      (ticking ==> isRunning && !isPaused) && (isPaused ==> isRunning && !ticking)
    }

    /** `remainingTime`: never negative. */
    function RemainingTime(): (r: int)
      reads this
      ensures r >= 0
      ensures r == 0 <==> elapsed >= interval
      ensures elapsed <= interval ==> r == interval - elapsed
    {
      if interval - elapsed > 0 then interval - elapsed else 0
    }

    constructor (interval: int, autoStart: bool, enabled: bool)
      ensures this.interval == interval && this.enabled == enabled
      ensures isRunning == (autoStart && enabled) && !isPaused && !ticking
      ensures elapsed == 0 && startTime == 0 && pausedTime == 0 && lastUpdate == 0 && completions == 0
      ensures Valid()
    {
      this.interval := interval;
      this.enabled := enabled;
      isRunning := autoStart && enabled;
      isPaused := false;
      elapsed := 0;
      ticking := false;
      startTime := 0;
      pausedTime := 0;
      lastUpdate := 0;
      completions := 0;
    }

    /** `start`: nothing when disabled; otherwise (re)installs the interval from `now`. The paused total is kept. */
    method Start(now: int)
      requires Valid()
      modifies this
      ensures Valid()
      ensures !enabled ==> (isRunning == old(isRunning) && isPaused == old(isPaused) && ticking == old(ticking)
        && startTime == old(startTime) && lastUpdate == old(lastUpdate))
      ensures enabled ==> isRunning && !isPaused && ticking && startTime == now && lastUpdate == now
      ensures elapsed == old(elapsed) && pausedTime == old(pausedTime) && completions == old(completions)
      ensures enabled == old(enabled)
    {
      if !enabled {
        return;
      }
      ticking := true;
      isRunning := true;
      isPaused := false;
      startTime := now;
      lastUpdate := now;
    }

    /**
     * One run of the interval callback: the elapsed time is the time since
     * the start less the time spent paused; once it reaches `interval` the
     * timer stops at exactly `interval` and `onComplete` fires.
     */
    method Tick(now: int)
      requires Valid()
      modifies this
      ensures Valid()
      ensures !old(ticking) ==> (elapsed == old(elapsed) && isRunning == old(isRunning) && ticking == old(ticking)
        && lastUpdate == old(lastUpdate) && completions == old(completions))
      ensures old(ticking) && now - startTime - pausedTime < interval ==>
        elapsed == now - startTime - pausedTime && isRunning && ticking && completions == old(completions)
      ensures old(ticking) && now - startTime - pausedTime >= interval ==>
        elapsed == interval && !isRunning && !ticking && completions == old(completions) + 1
      ensures old(ticking) ==> lastUpdate == now && elapsed <= interval
      ensures isPaused == old(isPaused) && startTime == old(startTime) && pausedTime == old(pausedTime)
      ensures enabled == old(enabled)
    {
      if !ticking {
        return;
      }
      var total := now - startTime - pausedTime;
      elapsed := total;
      lastUpdate := now;
      if total >= interval {
        ticking := false;
        isRunning := false;
        elapsed := interval;
        completions := completions + 1;
      }
    }

    /** `pause`: only a running, unpaused timer pauses; it stays running. */
    method Pause(now: int)
      requires Valid()
      modifies this
      ensures Valid()
      ensures !old(isRunning) || old(isPaused) ==> isPaused == old(isPaused) && ticking == old(ticking) && lastUpdate == old(lastUpdate)
      ensures old(isRunning) && !old(isPaused) ==> isPaused && !ticking && lastUpdate == now
      ensures isRunning == old(isRunning) && elapsed == old(elapsed) && startTime == old(startTime)
      ensures pausedTime == old(pausedTime) && completions == old(completions) && enabled == old(enabled)
    {
      if !isRunning || isPaused {
        return;
      }
      ticking := false;
      isPaused := true;
      lastUpdate := now;
    }

    /** `resume`: only a paused, enabled timer resumes; the pause is added to the paused total. */
    method Resume(now: int)
      requires Valid()
      modifies this
      ensures Valid()
      ensures !old(isPaused) || !enabled ==> isPaused == old(isPaused) && ticking == old(ticking) && pausedTime == old(pausedTime)
      ensures old(isPaused) && enabled ==> !isPaused && ticking && pausedTime == old(pausedTime) + (now - old(lastUpdate))
      ensures isRunning == old(isRunning) && elapsed == old(elapsed) && startTime == old(startTime)
      ensures lastUpdate == old(lastUpdate) && completions == old(completions) && enabled == old(enabled)
    {
      if !isPaused || !enabled {
        return;
      }
      isPaused := false;
      pausedTime := pausedTime + (now - lastUpdate);
      ticking := true;
    }

    /** `reset` and `resetImmediate` (they do the same): back to zero with nothing running. */
    method Reset()
      modifies this
      ensures Valid()
      ensures elapsed == 0 && !isRunning && !isPaused && !ticking
      ensures startTime == 0 && pausedTime == 0 && lastUpdate == 0
      ensures completions == old(completions) && enabled == old(enabled)
    {
      ticking := false;
      elapsed := 0;
      isRunning := false;
      isPaused := false;
      startTime := 0;
      pausedTime := 0;
      lastUpdate := 0;
    }

    /** `stop`: nothing runs any more, but the elapsed time and the refs are kept. */
    method Stop()
      modifies this
      ensures Valid()
      ensures !isRunning && !isPaused && !ticking
      ensures elapsed == old(elapsed) && startTime == old(startTime) && pausedTime == old(pausedTime)
      ensures lastUpdate == old(lastUpdate) && completions == old(completions) && enabled == old(enabled)
    {
      ticking := false;
      isRunning := false;
      isPaused := false;
    }

    /** The effect on `enabled`: a timer that is disabled while running is stopped. */
    method SetEnabled(e: bool)
      requires Valid()
      modifies this
      ensures Valid()
      ensures enabled == e
      ensures !e && old(isRunning) ==> !isRunning && !isPaused && !ticking
      ensures e || !old(isRunning) ==> isRunning == old(isRunning) && isPaused == old(isPaused) && ticking == old(ticking)
      ensures elapsed == old(elapsed) && startTime == old(startTime) && pausedTime == old(pausedTime)
      ensures lastUpdate == old(lastUpdate) && completions == old(completions)
    {
      enabled := e;
      if !enabled && isRunning {
        Stop();
      }
    }
  }

  /** The auto-start effect: an auto-started, enabled timer that is neither running nor paused is started. */
  method AutoStartEffect(t: SlideTimer, autoStart: bool, now: int)
    requires t.Valid()
    modifies t
    ensures t.Valid()
    ensures autoStart && t.enabled && !old(t.isRunning) && !old(t.isPaused) ==> t.isRunning && t.ticking && t.startTime == now
    ensures !(autoStart && t.enabled && !old(t.isRunning) && !old(t.isPaused)) ==>
      t.isRunning == old(t.isRunning) && t.ticking == old(t.ticking) && t.startTime == old(t.startTime)
    ensures t.elapsed == old(t.elapsed) && t.completions == old(t.completions)
  {
    if autoStart && t.enabled && !t.isRunning && !t.isPaused {
      t.Start(now);
    }
  }

  /** A full run: started, never paused, ticked at `interval` or later, completes exactly once at 100%. */
  method RunToCompletion(interval: int, start: int, now: int) returns (t: SlideTimer)
    requires now - start >= interval
    ensures t.elapsed == interval && t.completions == 1 && !t.isRunning && t.RemainingTime() == 0
  {
    t := new SlideTimer(interval, false, true);
    t.Start(start);
    t.Tick(now);
  }

  // ---- useSlideCarousel ----

  /** `(i + 1) % n`. */
  function NextIndex(i: int, n: int): (r: int)
    requires n > 0
    ensures 0 <= i < n ==> r == (if i + 1 < n then i + 1 else 0)
  {
    var r := JsRem(i + 1, n);
    assert 0 <= i < n - 1 ==> r == i + 1 by {
      if 0 <= i < n - 1 {
        assert (i + 1) / n == 0;
      }
    }
    assert i == n - 1 ==> r == 0 by {
      if i == n - 1 {
        assert (i + 1) / n == 1;
      }
    }
    r
  }

  /** `i === 0 ? n - 1 : i - 1`. */
  function PrevIndex(i: int, n: int): (r: int)
    requires n > 0
    ensures 0 <= i < n ==> 0 <= r < n
  {
    if i == 0 then n - 1 else i - 1
  }

  /** Next then previous, and previous then next, come back to the same slide. */
  lemma NextPrevInverse(i: int, n: int)
    requires 0 <= i < n
    ensures PrevIndex(NextIndex(i, n), n) == i
    ensures NextIndex(PrevIndex(i, n), n) == i
  {
  }

  /** The slide timer is enabled, and started on its own, only when there is more than one slide. */
  function CarouselTimerFlags(autoStart: bool, enabled: bool, slidesCount: int): (flags: (bool, bool))
    ensures flags.0 <==> autoStart && slidesCount > 1
    ensures flags.1 <==> enabled && slidesCount > 1
  {
    (autoStart && slidesCount > 1, enabled && slidesCount > 1)
  }

  /**
   * The effect `useSlideCarousel` runs when the slide changes: the timer is
   * reset when the index differs from the one last seen, and started again
   * (16 ms later in the component) while the carousel is enabled with more
   * than one slide. The result is the index now last seen.
   */
  method SlideChangeEffect(t: SlideTimer, lastSeen: int, currentIndex: int, enabled: bool, slidesCount: int, now: int)
    returns (seen: int)
    requires t.Valid() && t.enabled == CarouselTimerFlags(true, enabled, slidesCount).1
    modifies t
    ensures t.Valid() && seen == currentIndex
    ensures lastSeen != currentIndex ==> t.elapsed == 0 && t.pausedTime == 0
    ensures lastSeen == currentIndex ==> t.elapsed == old(t.elapsed) && t.pausedTime == old(t.pausedTime)
    ensures enabled && slidesCount > 1 ==> t.isRunning && !t.isPaused && t.ticking && t.startTime == now
    ensures !(enabled && slidesCount > 1) && lastSeen != currentIndex ==> !t.isRunning && !t.ticking
    ensures !(enabled && slidesCount > 1) && lastSeen == currentIndex ==>
      t.isRunning == old(t.isRunning) && t.ticking == old(t.ticking)
    ensures t.completions == old(t.completions)
  {
    if lastSeen != currentIndex {
      t.Reset();
    }
    seen := currentIndex;
    if enabled && slidesCount > 1 {
      t.Start(now);
    }
  }

  datatype Direction = Next | Prev

  class SlideCarousel {
    const slidesCount: int
    /** `currentIndex` passed in by the caller; when present the hook keeps no index of its own. */
    const externalIndex: Option<int>
    var internalIndex: int
    var changes: seq<(int, Direction)>

    function CurrentIndex(): int
      reads this
    {
      externalIndex.GetOr(internalIndex)
    }

    constructor (slidesCount: int, externalIndex: Option<int>)
      ensures this.slidesCount == slidesCount && this.externalIndex == externalIndex
      ensures internalIndex == 0 && changes == []
    {
      this.slidesCount := slidesCount;
      this.externalIndex := externalIndex;
      internalIndex := 0;
      changes := [];
    }

    /** `goToNext`. */
    method GoToNext()
      requires slidesCount > 0
      modifies this
      ensures changes == old(changes) + [(NextIndex(old(CurrentIndex()), slidesCount), Next)]
      ensures externalIndex.None? ==> internalIndex == NextIndex(old(CurrentIndex()), slidesCount)
      ensures externalIndex.Some? ==> internalIndex == old(internalIndex)
    {
      var newIndex := NextIndex(CurrentIndex(), slidesCount);
      if externalIndex.None? {
        internalIndex := newIndex;
      }
      changes := changes + [(newIndex, Next)];
    }

    /** `goToPrev`. */
    method GoToPrev()
      requires slidesCount > 0
      modifies this
      ensures changes == old(changes) + [(PrevIndex(old(CurrentIndex()), slidesCount), Prev)]
      ensures externalIndex.None? ==> internalIndex == PrevIndex(old(CurrentIndex()), slidesCount)
      ensures externalIndex.Some? ==> internalIndex == old(internalIndex)
    {
      var newIndex := PrevIndex(CurrentIndex(), slidesCount);
      if externalIndex.None? {
        internalIndex := newIndex;
      }
      changes := changes + [(newIndex, Prev)];
    }

    /** `goToSlide(index)`: an index outside the slides is ignored; the direction is `next` iff the index is ahead. */
    method GoToSlide(index: int)
      modifies this
      ensures !(0 <= index < slidesCount) ==> changes == old(changes) && internalIndex == old(internalIndex)
      ensures 0 <= index < slidesCount ==>
        changes == old(changes) + [(index, if index > old(CurrentIndex()) then Next else Prev)]
        && internalIndex == (if externalIndex.None? then index else old(internalIndex))
    {
      if 0 <= index < slidesCount {
        var current := CurrentIndex();
        if externalIndex.None? {
          internalIndex := index;
        }
        changes := changes + [(index, if index > current then Next else Prev)];
      }
    }
  }
}
