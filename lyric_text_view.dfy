/** The frame-driven horizontal scroller that draws one line of lyric text
    (`LyricTextView`). The text starts at x = 0 and is moved, once per display frame,
    toward `viewWidth - textLength`, where its trailing edge meets the view's trailing
    edge; it snaps exactly onto that target and stops there. Positions and speeds are
    reals: the properties below do not depend on float rounding. */
module Scroller {

  /** The two configuration values the scroller reads when a scroll starts. */
  datatype ScrollConfig = ScrollConfig(animationDuration: int, dynamicLyricSpeed: bool)

  /** Delay, in ms, between a text change and the first scrolling frame. */
  function StartDelay(cfg: ScrollConfig): (ms: int)
    ensures cfg.dynamicLyricSpeed ==> ms == cfg.animationDuration + 200
    ensures !cfg.dynamicLyricSpeed ==> ms == cfg.animationDuration + 500
  {
    cfg.animationDuration + if cfg.dynamicLyricSpeed then 200 else 500
  }

  /** `x` lies between `a` and `b`, both included, whichever of them is smaller. */
  predicate Between(x: real, a: real, b: real)
  {
    (a <= x <= b) || (b <= x <= a)
  }

  function Abs(x: real): real { if x < 0.0 then -x else x }

  /** Where one `updateScrollPosition(step)` leaves the text, from `x`, when the target is
      `target`: it moves by `step` toward the target and snaps onto it once the move would
      reach or pass it. */
  function NextX(x: real, target: real, step: real): (r: real)
    ensures step >= 0.0 ==> Between(r, x, target)
    ensures x == target ==> r == target
    ensures x > target && x - step <= target ==> r == target
    ensures x < target && x + step >= target ==> r == target
    ensures r != target ==> Abs(r - target) == Abs(x - target) - step
  {
    if x > target then
      (if x - step <= target then target else x - step)
    else if x < target then
      (if x + step >= target then target else x + step)
    else
      x
  }

  /** One frame's advance: `scrollSpeed` pixels per 1/60 s of elapsed time. */
  function FrameStep(speed: real, lastNanos: int, nowNanos: int): (step: real)
    ensures speed >= 0.0 && nowNanos >= lastNanos ==> step >= 0.0
    ensures nowNanos == lastNanos ==> step == 0.0
  {
    speed * (((nowNanos - lastNanos) as real / 1000000000.0) * 60.0)
  }

  /** `n` successive updates with the same step. */
  function Iterate(x: real, target: real, step: real, n: nat): real
    decreases n
  {
    if n == 0 then x else Iterate(NextX(x, target, step), target, step, n - 1)
  }

  /** Once on the target the text never leaves it. */
  lemma {:induction false} IterateFromTarget(target: real, step: real, n: nat)
    ensures Iterate(target, target, step, n) == target
  {
    if n > 0 {
      IterateFromTarget(target, step, n - 1);
    }
  }

  /** Any number of non-negative steps keeps the text between its start and the target. */
  lemma {:induction false} IterateStaysBetween(x: real, target: real, step: real, n: nat)
    requires step >= 0.0
    ensures Between(Iterate(x, target, step, n), x, target)
    decreases n
  {
    if n > 0 {
      var x' := NextX(x, target, step);
      IterateStaysBetween(x', target, step, n - 1);
    }
  }

  /** Convergence: with a positive step, `n` frames whose total advance covers the
      distance to the target end exactly on the target. */
  lemma {:induction false} IterateReachesTarget(x: real, target: real, step: real, n: nat)
    requires step > 0.0
    requires n as real * step >= Abs(x - target)
    ensures Iterate(x, target, step, n) == target
    decreases n
  {
    if n > 0 {
      var x' := NextX(x, target, step);
      if x' == target {
        IterateFromTarget(target, step, n - 1);
      } else {
        assert Abs(x' - target) == Abs(x - target) - step;
        IterateReachesTarget(x', target, step, n - 1);
      }
    } else {
      assert x == target;
    }
  }

  class LyricTextView {
    var isScrolling: bool
    var textString: string
    var textLength: real
    var viewWidth: real
    var scrollSpeed: real
    var currentX: real
    var lastFrameNanos: int
    /** `startScrollRunnable` is posted and has not run yet. */
    var startPending: bool
    /** The delay `startScrollRunnable` was last posted with. */
    var startDelay: int
    /** This view is registered as the Choreographer's next frame callback. The Choreographer
        keeps one record per registration, so a `resumeScroll` while a frame is already
        registered gives two callbacks on the next frame; this flag merges them into one. The
        second callback of a frame sees the timestamp the first one stored, so its step is 0
        and it does not move the text. */
    var framePosted: bool

    /** A stopped scroller has no pending start and no frame timestamp. */
    ghost predicate Valid()
      reads this
    {
      !isScrolling ==> !startPending && lastFrameNanos == 0
    }

    /** `viewWidth - textLength`: the offset at which the text's end meets the view's end. */
    function TargetX(): real
      reads this
    {
      viewWidth - textLength
    }

    constructor ()
      ensures Valid()
      ensures !isScrolling && textString == "" && textLength == 0.0 && viewWidth == 0.0
      ensures scrollSpeed == 4.0 && currentX == 0.0 && lastFrameNanos == 0
      ensures !startPending && !framePosted
    {
      isScrolling := false;
      textString := "";
      textLength := 0.0;
      viewWidth := 0.0;
      scrollSpeed := 4.0;
      currentX := 0.0;
      lastFrameNanos := 0;
      startPending := false;
      startDelay := 0;
      framePosted := false;
    }

    /** `stopScroll`: cancels the pending start and the frame callback. */
    method StopScroll()
      modifies this`isScrolling, this`startPending, this`framePosted, this`lastFrameNanos
      ensures Valid()
      ensures !isScrolling && !startPending && !framePosted && lastFrameNanos == 0
    {
      isScrolling := false;
      startPending := false;
      framePosted := false;
      lastFrameNanos := 0;
    }

    /** `startScroll`: arms the delayed start; the first frame will only take a timestamp. */
    method StartScroll(cfg: ScrollConfig)
      modifies this`isScrolling, this`lastFrameNanos, this`startPending, this`startDelay
      ensures Valid()
      ensures isScrolling && lastFrameNanos == 0
      ensures startPending && startDelay == StartDelay(cfg)
    {
      isScrolling := true;
      lastFrameNanos := 0;
      startPending := true;
      startDelay := StartDelay(cfg);
    }

    /** The posted `startScrollRunnable` runs: it registers the frame callback. */
    method RunStartScrollRunnable()
      requires Valid()
      modifies this`startPending, this`framePosted
      ensures Valid()
      ensures !startPending
      ensures framePosted == (old(framePosted) || old(startPending))
    {
      if startPending {
        startPending := false;
        framePosted := true;
      }
    }

    /** `resumeScroll`: keeps the offset and re-registers the frame callback at once. */
    method ResumeScroll()
      modifies this`isScrolling, this`lastFrameNanos, this`framePosted
      ensures Valid()
      ensures isScrolling && lastFrameNanos == 0 && framePosted
    {
      isScrolling := true;
      lastFrameNanos := 0;
      framePosted := true;
    }

    /** `setText`: stops any scroll, puts the new text at offset 0 and starts again.
        `measuredLength` is the paint's width of `text`. */
    method SetText(text: string, measuredLength: real, cfg: ScrollConfig)
      modifies this
      ensures Valid()
      ensures textString == text && textLength == measuredLength && currentX == 0.0
      ensures isScrolling && lastFrameNanos == 0 && startPending && startDelay == StartDelay(cfg)
      ensures !framePosted
      ensures viewWidth == old(viewWidth) && scrollSpeed == old(scrollSpeed)
    {
      StopScroll();
      currentX := 0.0;
      textString := text;
      textLength := measuredLength;
      StartScroll(cfg);
    }

    /** `recomputeTextMetrics`, run after a text size, typeface or letter spacing change. */
    method RecomputeTextMetrics(measuredLength: real)
      modifies this`textLength
      ensures textLength == measuredLength
    {
      textLength := measuredLength;
    }

    /** `setScrollSpeed`. */
    method SetScrollSpeed(speed: real)
      modifies this`scrollSpeed
      ensures scrollSpeed == speed
    {
      scrollSpeed := speed;
    }

    /** `onSizeChanged`: takes the new width and resumes scrolling from where it was. */
    method OnSizeChanged(w: int)
      modifies this`viewWidth, this`isScrolling, this`lastFrameNanos, this`framePosted
      ensures Valid()
      ensures viewWidth == w as real
      ensures isScrolling && lastFrameNanos == 0 && framePosted
    {
      viewWidth := w as real;
      ResumeScroll();
    }

    /** `onDetachedFromWindow`. */
    method OnDetachedFromWindow()
      modifies this`isScrolling, this`startPending, this`framePosted, this`lastFrameNanos
      ensures Valid()
      ensures !isScrolling && !startPending && !framePosted && lastFrameNanos == 0
    {
      StopScroll();
    }

    /** `updateScrollPosition(step)`: moves toward the target; reaching or passing it snaps
        onto it and stops the scroll, and so does already being there. */
    method UpdateScrollPosition(step: real)
      requires Valid()
      modifies this`currentX, this`isScrolling, this`startPending, this`framePosted, this`lastFrameNanos
      ensures Valid()
      ensures currentX == NextX(old(currentX), TargetX(), step)
      ensures currentX == TargetX() ==> !isScrolling && !startPending && !framePosted && lastFrameNanos == 0
      ensures currentX != TargetX() ==>
        isScrolling == old(isScrolling) && startPending == old(startPending) &&
        framePosted == old(framePosted) && lastFrameNanos == old(lastFrameNanos)
    {
      var targetX := viewWidth - textLength;
      if currentX > targetX {
        var nextX := currentX - step;
        if nextX <= targetX {
          currentX := targetX;
          StopScroll();
        } else {
          currentX := nextX;
        }
      } else if currentX < targetX {
        var nextX := currentX + step;
        if nextX >= targetX {
          currentX := targetX;
          StopScroll();
        } else {
          currentX := nextX;
        }
      } else {
        StopScroll();
      }
    }

    /** `doFrame(frameTimeNanos)`: the Choreographer callback. The callback that fires is
        consumed; a scrolling view registers itself again, even when this very frame
        ended the scroll. */
    method DoFrame(frameTimeNanos: int)
      requires Valid()
      modifies this`currentX, this`isScrolling, this`startPending, this`framePosted, this`lastFrameNanos
      ensures Valid()
      ensures !old(isScrolling) ==>
        !framePosted && currentX == old(currentX) && !isScrolling && lastFrameNanos == old(lastFrameNanos) &&
        startPending == old(startPending)
      ensures old(isScrolling) ==> framePosted
      ensures old(isScrolling) && old(lastFrameNanos) == 0 ==>
        currentX == old(currentX) && isScrolling && lastFrameNanos == frameTimeNanos && startPending == old(startPending)
      ensures old(isScrolling) && old(lastFrameNanos) != 0 ==>
        currentX == NextX(old(currentX), TargetX(), FrameStep(scrollSpeed, old(lastFrameNanos), frameTimeNanos)) &&
        (currentX == TargetX() ==> !isScrolling && !startPending && lastFrameNanos == 0) &&
        (currentX != TargetX() ==> isScrolling && startPending == old(startPending) && lastFrameNanos == frameTimeNanos)
    {
      framePosted := false;
      if isScrolling {
        var last := lastFrameNanos;
        lastFrameNanos := frameTimeNanos;
        if last != 0 {
          var deltaSeconds := (frameTimeNanos - last) as real / 1000000000.0;
          var step := scrollSpeed * (deltaSeconds * 60.0);
          UpdateScrollPosition(step);
        }
        framePosted := true;
      }
    }
  }
}
