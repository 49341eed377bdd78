/** The Xiaomi extension (`XiaomiHooks`): the width the "super island" notification pill
    takes from the status bar, and the notification shade's big clock, which is kept out of
    the way while the lyric replaces the status-bar clock. */
module Xiaomi {
  import opened Tools

  /** Host views are known by identity only. */
  type ViewId = nat

  /** Expansion fraction below which the shade's big clock is hidden. */
  const BigTimeThreshold: real := 0.8

  /** Width reserved for the island: the island's width plus the configured offset when the
      island is present (positive width), nothing otherwise. */
  function ReservedIslandWidth(islandWidth: int, islandOffset: int): (w: int)
    ensures islandWidth > 0 ==> w == islandWidth + islandOffset
    ensures islandWidth <= 0 ==> w == 0
  {
    if islandWidth > 0 then islandWidth + islandOffset else 0
  }

  /** Visibility given to the big clock at expansion fraction `f`. */
  predicate BigTimeVisibleAt(f: real)
  {
    !(f < BigTimeThreshold)
  }

  /** The big clock is hidden exactly below the threshold, and the rule is monotone: once
      visible at some fraction it stays visible at every larger fraction. */
  lemma BigTimeVisibilityMonotone(f: real, g: real)
    requires f <= g
    ensures BigTimeVisibleAt(f) ==> BigTimeVisibleAt(g)
    ensures !BigTimeVisibleAt(f) <==> f < 0.8
  {
  }

  /** The host's `NotificationHeaderExpandController`, reduced to what the hook touches:
      two translation fields it writes and the big-clock view reachable through
      `headerController.get().notificationBigTime`. */
  class ExpandController {
    var bigTimeTranslationY: int
    var notificationTranslationX: int
    var notificationBigTime: Option<ViewId>

    constructor (bigTimeTranslationY: int, notificationTranslationX: int, notificationBigTime: Option<ViewId>)
      ensures this.bigTimeTranslationY == bigTimeTranslationY
      ensures this.notificationTranslationX == notificationTranslationX
      ensures this.notificationBigTime == notificationBigTime
    {
      this.bigTimeTranslationY := bigTimeTranslationY;
      this.notificationTranslationX := notificationTranslationX;
      this.notificationBigTime := notificationBigTime;
    }
  }

  /** The companion object of `XiaomiHooks`. `bigTimeVisible` records the visibility this
      module last gave to each big-clock view it reached. */
  class XiaomiHooks {
    var notificationBigTimeRef: Option<ViewId>
    var lastIslandWidth: int
    var bigTimeVisible: map<ViewId, bool>

    constructor ()
      ensures notificationBigTimeRef == None && lastIslandWidth == 0 && bigTimeVisible == map[]
    {
      notificationBigTimeRef := None;
      lastIslandWidth := 0;
      bigTimeVisible := map[];
    }

    /** `getNotificationBigTime()`. */
    function GetNotificationBigTime(): Option<ViewId>
      reads this
    {
      notificationBigTimeRef
    }

    /** `setNotificationBigTime(view)`: a non-null view becomes the (weakly) referenced
        view, a null view clears the reference. */
    method SetNotificationBigTime(view: Option<ViewId>)
      modifies this`notificationBigTimeRef
      ensures notificationBigTimeRef == view
      ensures view.None? ==> GetNotificationBigTime().None?
    {
      notificationBigTimeRef := match view
        case Some(v) => Some(v)
        case None => None;
    }

    /** `getNotificationBigTime()?.visibility = ...`, as `showLyric` and `hideLyric` do:
        only a referenced view is touched. */
    method SetBigTimeVisibility(visible: bool)
      modifies this`bigTimeVisible
      ensures notificationBigTimeRef.Some? ==>
        bigTimeVisible == old(bigTimeVisible)[notificationBigTimeRef.value := visible]
      ensures notificationBigTimeRef.None? ==> bigTimeVisible == old(bigTimeVisible)
    {
      match notificationBigTimeRef
      case Some(v) => bigTimeVisible := bigTimeVisible[v := visible];
      case None =>
    }

    /** The after-hook on `getIslandWidth`: remembers the raw width and returns the value
        the lyric controller stores as its `superIslandWidth`. */
    method OnGetIslandWidth(islandWidth: int, islandOffset: int) returns (superIslandWidth: int)
      modifies this`lastIslandWidth
      ensures lastIslandWidth == islandWidth
      ensures superIslandWidth == ReservedIslandWidth(islandWidth, islandOffset)
    {
      lastIslandWidth := islandWidth;
      superIslandWidth := if islandWidth > 0 then islandWidth + islandOffset else 0;
    }

    /** The before-hook on `onExpansionChanged(f)`. It acts only while music plays, the
        lyric is not hidden and the clock is configured to be hidden: it zeroes the two
        translations, takes the controller's big clock as the referenced view and shows it
        from fraction 0.8 on. `controller` is null when the host object has no
        `this$0`. */
    method OnExpansionChanged(controller: ExpandController?, f: real,
                              isMusicPlaying: bool, isHiding: bool, hideTime: bool)
      modifies this`notificationBigTimeRef, this`bigTimeVisible, controller
      ensures !(isMusicPlaying && !isHiding && hideTime) ==>
        notificationBigTimeRef == old(notificationBigTimeRef) && bigTimeVisible == old(bigTimeVisible) &&
        (controller != null ==> unchanged(controller))
      ensures isMusicPlaying && !isHiding && hideTime ==>
        && (controller != null ==>
              controller.bigTimeTranslationY == 0 && controller.notificationTranslationX == 0 &&
              controller.notificationBigTime == old(controller.notificationBigTime))
        && notificationBigTimeRef == (if controller == null then None else controller.notificationBigTime)
        && (notificationBigTimeRef.Some? ==>
              bigTimeVisible == old(bigTimeVisible)[notificationBigTimeRef.value := BigTimeVisibleAt(f)])
        && (notificationBigTimeRef.None? ==> bigTimeVisible == old(bigTimeVisible))
    {
      if isMusicPlaying && !isHiding && hideTime {
        var bigTimeView: Option<ViewId> := None;
        if controller != null {
          controller.bigTimeTranslationY := 0;
          controller.notificationTranslationX := 0;
          bigTimeView := controller.notificationBigTime;
        }
        SetNotificationBigTime(bigTimeView);
        if f < 0.8 {
          SetBigTimeVisibility(false);
        } else {
          SetBigTimeVisibility(true);
        }
      }
    }
  }
}
