/** How wide the lyric view is made and how fast its text scrolls (the arithmetic inside
    `getLyricWidth`, `scaleWidth` and the speed selection of `showLyric`, `updateConfig`
    and the `superIslandWidth` observer).

    Widths are the host's `Int` pixels. The overflow `i` that drives the speed is
    `theoreticalWidth - lyricWidth`: the measured text width minus the width the view was
    given, i.e. how much text does NOT fit. Speeds are reals standing for Kotlin floats. */
module Geometry {
  import opened Tools

  const MinSpeed: real := 0.3
  const MaxSpeed: real := 5.0

  function Min(a: int, b: int): int { if a <= b then a else b }
  function Max(a: int, b: int): int { if a >= b then a else b }

  /** Kotlin's `coerceIn(lo, hi)`. */
  function CoerceIn(x: real, lo: real, hi: real): (r: real)
    requires lo <= hi
    ensures lo <= r <= hi
    ensures lo <= x <= hi ==> r == x
    ensures x < lo ==> r == lo
    ensures x > hi ==> r == hi
  {
    if x < lo then lo else if x > hi then hi else x
  }

  /** Kotlin's `Float.toInt()`: rounds toward zero. */
  function TruncateToInt(x: real): (n: int)
    ensures x >= 0.0 ==> 0.0 <= n as real <= x < n as real + 1.0
    ensures x < 0.0 ==> x <= n as real <= 0.0 && n as real - 1.0 < x
  {
    if x >= 0.0 then x.Floor else -((-x).Floor)
  }

  /** `scaleWidth()`: `lyricWidth` per cent of the display's width (its height in
      landscape), truncated. */
  function ScaleWidth(lyricWidthPercent: int, landscape: bool, displayWidth: int, displayHeight: int): (w: int)
    ensures var side := if landscape then displayHeight else displayWidth;
      0 <= lyricWidthPercent <= 100 && side >= 0 ==> 0 <= w <= side
  {
    var side := if landscape then displayHeight else displayWidth;
    var x := lyricWidthPercent as real / 100.0 * side as real;
    ScaledSideBounds(lyricWidthPercent, side);
    TruncateToInt(x)
  }

  lemma ScaledSideBounds(percent: int, side: int)
    ensures 0 <= percent <= 100 && side >= 0 ==>
      0.0 <= percent as real / 100.0 * side as real <= side as real
  {
    if 0 <= percent <= 100 && side >= 0 {
      var p := percent as real / 100.0;
      assert 0.0 <= p <= 1.0;
      assert p * side as real <= 1.0 * side as real;
    }
  }

  /** The width `getLyricWidth` gives the lyric view for text measuring `textWidth`.
      With no configured width (`lyricWidthPercent == 0`) the text gets what the target
      leaves after the margins and the island, never less than 0 and never more than it
      needs; with a configured width it gets `scaled` (`scaleWidth()`), capped at the text
      width unless the width is fixed. */
  function LyricWidth(lyricWidthPercent: int, fixedLyricWidth: bool, textWidth: int, targetWidth: int,
                      startMargins: int, endMargins: int, superIslandWidth: int, scaled: int): (w: int)
    ensures lyricWidthPercent == 0 ==>
      w == Min(textWidth, Max(0, targetWidth - startMargins - endMargins - superIslandWidth))
    ensures lyricWidthPercent == 0 && textWidth >= 0 ==> 0 <= w <= textWidth
    ensures lyricWidthPercent != 0 && fixedLyricWidth ==> w == scaled
    ensures lyricWidthPercent != 0 && !fixedLyricWidth ==> w == Min(textWidth, scaled)
  {
    if lyricWidthPercent == 0 then
      var available := targetWidth - startMargins - endMargins - superIslandWidth;
      var safeAvailable := Max(0, available);
      Min(textWidth, safeAvailable)
    else if fixedLyricWidth then
      scaled
    else
      Min(textWidth, scaled)
  }

  /** Unless the width is fixed, the view is never wider than the text: the overflow is
      never negative. With a fixed width it can be. */
  lemma OverflowIsNonNegative(lyricWidthPercent: int, fixedLyricWidth: bool, textWidth: int, targetWidth: int,
                              startMargins: int, endMargins: int, superIslandWidth: int, scaled: int)
    requires textWidth >= 0
    requires lyricWidthPercent == 0 || !fixedLyricWidth
    ensures textWidth - LyricWidth(lyricWidthPercent, fixedLyricWidth, textWidth, targetWidth,
                                   startMargins, endMargins, superIslandWidth, scaled) >= 0
  {
  }

  /** A fixed width ignores the text: any two texts get the same width. */
  lemma FixedWidthIgnoresText(lyricWidthPercent: int, textWidth1: int, textWidth2: int, targetWidth: int,
                              startMargins: int, endMargins: int, superIslandWidth: int, scaled: int)
    requires lyricWidthPercent != 0
    ensures LyricWidth(lyricWidthPercent, true, textWidth1, targetWidth, startMargins, endMargins, superIslandWidth, scaled)
         == LyricWidth(lyricWidthPercent, true, textWidth2, targetWidth, startMargins, endMargins, superIslandWidth, scaled)
  {
  }

  /** A wider island never gives the lyric more room. */
  lemma {:induction false} WiderIslandNeverWidens(textWidth: int, targetWidth: int, startMargins: int, endMargins: int,
                                                 island1: int, island2: int)
    requires island1 <= island2
    ensures LyricWidth(0, false, textWidth, targetWidth, startMargins, endMargins, island2, 0)
         <= LyricWidth(0, false, textWidth, targetWidth, startMargins, endMargins, island1, 0)
  {
    var a1 := targetWidth - startMargins - endMargins - island1;
    var a2 := targetWidth - startMargins - endMargins - island2;
    assert a2 <= a1;
    assert Max(0, a2) <= Max(0, a1);
  }

  /** The overflow as a share of the view's width, `i.toFloat() / lyricWidth`. */
  function OverflowShare(i: int, lyricWidth: int): (share: real)
    requires i > 0 && lyricWidth > 0
    ensures share > 0.0
  {
    i as real / lyricWidth as real
  }

  /** `5f / durationInSeconds` for a delay of `delayMs` milliseconds. */
  function DelayRate(delayMs: int): (rate: real)
    requires delayMs > 0
    ensures rate > 0.0
  {
    var durationInSeconds := delayMs as real / 1000.0;
    5.0 / durationInSeconds
  }

  /** Delay mode: the speed at which the overflow `i` scrolls past within `delayMs`
      milliseconds, from a floor of 0.3, clamped to [0.3, 5.0]. */
  function DelayModeSpeed(i: int, lyricWidth: int, delayMs: int): (s: real)
    requires i > 0 && lyricWidth > 0 && delayMs > 0
    ensures MinSpeed <= s <= MaxSpeed
    ensures s > MinSpeed
  {
    var share := OverflowShare(i, lyricWidth);
    var rate := DelayRate(delayMs);
    PositiveProduct(share, rate);
    CoerceIn(0.3 + share * rate, 0.3, 5.0)
  }

  lemma PositiveProduct(a: real, b: real)
    requires a > 0.0 && b > 0.0
    ensures a * b > 0.0
  {
  }

  /** The longer the time left, the slower the scroll. */
  lemma DelayModeSlowsWithLongerDelay(i: int, lyricWidth: int, delay1: int, delay2: int)
    requires i > 0 && lyricWidth > 0 && 0 < delay1 <= delay2
    ensures DelayModeSpeed(i, lyricWidth, delay2) <= DelayModeSpeed(i, lyricWidth, delay1)
  {
    var share := OverflowShare(i, lyricWidth);
    DelayRateAntitone(delay1, delay2);
    MulMonotone(share, DelayRate(delay2), DelayRate(delay1));
    CoerceInMonotone(0.3 + share * DelayRate(delay2), 0.3 + share * DelayRate(delay1), 0.3, 5.0);
    assert DelayModeSpeed(i, lyricWidth, delay2) == CoerceIn(0.3 + share * DelayRate(delay2), 0.3, 5.0);
    assert DelayModeSpeed(i, lyricWidth, delay1) == CoerceIn(0.3 + share * DelayRate(delay1), 0.3, 5.0);
  }

  lemma DelayRateAntitone(delay1: int, delay2: int)
    requires 0 < delay1 <= delay2
    ensures DelayRate(delay2) <= DelayRate(delay1)
  {
    RecipAntitone(delay1 as real / 1000.0, delay2 as real / 1000.0);
  }

  lemma RecipAntitone(a: real, b: real)
    requires 0.0 < a <= b
    ensures 5.0 / b <= 5.0 / a
  {
  }

  lemma MulMonotone(k: real, x: real, y: real)
    requires k > 0.0 && x <= y
    ensures k * x <= k * y
  {
  }

  lemma CoerceInMonotone(x: real, y: real, lo: real, hi: real)
    requires lo <= hi && x <= y
    ensures CoerceIn(x, lo, hi) <= CoerceIn(y, lo, hi)
  {
  }

  const Int32Max: int := 0x7fff_ffff

  /** Kotlin `Int` arithmetic: `x` wrapped into 32-bit two's complement. */
  function WrapInt32(x: int): (r: int)
    ensures -0x8000_0000 <= r <= Int32Max
    ensures -0x8000_0000 <= x <= Int32Max ==> r == x
    ensures (r - x) % 0x1_0000_0000 == 0
  {
    (x + 0x8000_0000) % 0x1_0000_0000 - 0x8000_0000
  }

  /** Dynamic mode. The proportion `i / lyricWidth` is an integer division and
      `10 * proportion` is an `Int` product, so the speed is 0.7 while the overflow is
      narrower than the view and 5.0 (the clamp of 10.7 and more) from then on, as long as
      that product fits in 32 bits. */
  function DynamicModeSpeed(i: int, lyricWidth: int): (s: real)
    requires i > 0 && lyricWidth > 0
    ensures MinSpeed <= s <= MaxSpeed
    ensures i < lyricWidth ==> s == 0.7
    ensures i >= lyricWidth && 10 * (i / lyricWidth) <= Int32Max ==> s == MaxSpeed
  {
    var proportion := i / lyricWidth;
    assert i < lyricWidth ==> proportion == 0;
    assert i >= lyricWidth ==> proportion >= 1;
    var product := WrapInt32(10 * proportion);
    assert 10 * proportion <= Int32Max ==> product == 10 * proportion;
    CoerceIn(product as real + 0.7, 0.3, 5.0)
  }

  /** Past 32 bits the product wraps to a negative `Int`: a proportion from 214748365 to
      429496729 gives the slowest speed instead of the fastest. */
  lemma DynamicModeWrapsToMinimum(i: int, lyricWidth: int)
    requires i > 0 && lyricWidth > 0
    requires 214748365 <= i / lyricWidth <= 429496729
    ensures DynamicModeSpeed(i, lyricWidth) == MinSpeed
  {
    var p := i / lyricWidth;
    assert WrapInt32(10 * p) == 10 * p - 0x1_0000_0000;
  }

  /** The speed `showLyric` sets for a view of width `lyricWidth` whose text overflows it
      by `i`; `None` when it leaves the view's speed as it was. */
  function ShowLyricSpeed(i: int, lyricWidth: int, delay: int, dynamicLyricSpeed: bool, lyricSpeed: int): (r: Option<real>)
    ensures !(i > 0 && lyricWidth > 0) ==> r == Some(lyricSpeed as real)
    ensures i > 0 && lyricWidth > 0 && delay > 0 ==> r == Some(DelayModeSpeed(i, lyricWidth, delay))
    ensures i > 0 && lyricWidth > 0 && delay <= 0 && dynamicLyricSpeed ==> r == Some(DynamicModeSpeed(i, lyricWidth))
    ensures r.None? <==> i > 0 && lyricWidth > 0 && delay <= 0 && !dynamicLyricSpeed
  {
    if i > 0 && lyricWidth > 0 then
      if delay > 0 then
        var durationInSeconds := delay as real / 1000.0;
        if durationInSeconds > 0.0 then Some(DelayModeSpeed(i, lyricWidth, delay)) else None
      else if dynamicLyricSpeed then
        Some(DynamicModeSpeed(i, lyricWidth))
      else
        None
    else
      Some(lyricSpeed as real)
  }

  /** The speed `updateConfig` and the `superIslandWidth` observer set: the same rule
      without a delay, and the configured speed also in static mode. */
  function RefitSpeed(i: int, lyricWidth: int, dynamicLyricSpeed: bool, lyricSpeed: int): (s: real)
    ensures i > 0 && lyricWidth > 0 && dynamicLyricSpeed ==> s == DynamicModeSpeed(i, lyricWidth)
    ensures !(i > 0 && lyricWidth > 0 && dynamicLyricSpeed) ==> s == lyricSpeed as real
  {
    if i > 0 && lyricWidth > 0 then
      if dynamicLyricSpeed then DynamicModeSpeed(i, lyricWidth) else lyricSpeed as real
    else
      lyricSpeed as real
  }

  /** Any speed chosen for overflowing text by the delay or dynamic rule lies in
      [0.3, 5.0]; only the configured static speed escapes the clamp. */
  lemma ChosenSpeedIsClamped(i: int, lyricWidth: int, delay: int, dynamicLyricSpeed: bool, lyricSpeed: int)
    ensures var r := ShowLyricSpeed(i, lyricWidth, delay, dynamicLyricSpeed, lyricSpeed);
      i > 0 && lyricWidth > 0 && r.Some? ==> MinSpeed <= r.value <= MaxSpeed
    ensures var s := RefitSpeed(i, lyricWidth, dynamicLyricSpeed, lyricSpeed);
      i > 0 && lyricWidth > 0 && dynamicLyricSpeed ==> MinSpeed <= s <= MaxSpeed
  {
  }

  /** Without a delay, wherever `showLyric` sets a speed it is the one a later refit
      would set. */
  lemma ShowAndRefitAgree(i: int, lyricWidth: int, dynamicLyricSpeed: bool, lyricSpeed: int)
    ensures var r := ShowLyricSpeed(i, lyricWidth, 0, dynamicLyricSpeed, lyricSpeed);
      r.Some? ==> r.value == RefitSpeed(i, lyricWidth, dynamicLyricSpeed, lyricSpeed)
  {
  }

  /** Text of 150 px in a 200 px target with a 2 s delay fits, so there is no overflow and
      the configured speed is used: the delay rule only applies to text that does not fit. */
  lemma FittingTextUsesConfiguredSpeed(lyricSpeed: int)
    ensures var w := LyricWidth(0, false, 150, 200, 0, 0, 0, 0);
      w == 150 && ShowLyricSpeed(150 - w, w, 2000, false, lyricSpeed) == Some(lyricSpeed as real)
  {
  }

  /** Text of 200 px shown in 150 px overflows by 50: the delay rule over 2 s gives
      0.3 + (50 / 150) * 2.5, and the dynamic rule, whose proportion 50 / 150 is 0 in
      integer division, gives 0.7. */
  lemma OverflowingTextScenarios()
    ensures var w := LyricWidth(0, false, 200, 150, 0, 0, 0, 0);
      && w == 150
      && DelayModeSpeed(200 - w, w, 2000) == 0.3 + (50.0 / 150.0) * 2.5
      && DynamicModeSpeed(200 - w, w) == 0.7
  {
  }
}
