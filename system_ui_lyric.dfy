/** The lyric controller hooked into SystemUI (`SystemUILyric`): the registry of lyric
    containers (one per status-bar clock), the playback state driven by the lyric
    service's `onSuperLyric` / `onStop` events, the 10 s silence timeout, the delayed title,
    the screen-lock receiver, the touch gestures on the status bar, and the show/hide
    decision with the width and speed each container's lyric view is given.

    Blocks the source posts to the main thread run inline. Facts the source reads from
    the host at the moment it needs them (fullscreen flags, orientation, display size,
    measured text widths, view widths and bounds) arrive in a `Host` value. */
module Lyric {
  import opened Tools
  import opened Geometry
  import opened Xiaomi

  // ---------------------------------------------------------------------------
  // Inputs
  // ---------------------------------------------------------------------------

  /** The configuration values this controller reads. `defaultIcon` is
      `config.getDefaultIcon(packageName)`. */
  datatype Config = Config(
    lyricWidth: int,
    fixedLyricWidth: bool,
    lyricStartMargins: int,
    lyricEndMargins: int,
    lyricSpeed: int,
    dynamicLyricSpeed: bool,
    hideTime: bool,
    titleSwitch: bool,
    titleShowWithSameLyric: bool,
    timeoutRestore: bool,
    islandOffset: int,
    slideStatusBarCutSongs: bool,
    slideStatusBarCutSongsXRadius: int,
    slideStatusBarCutSongsYRadius: int,
    longClickStatusBarStop: bool,
    clickStatusBarToHideLyric: bool,
    iconSwitch: bool,
    changeAllIcons: string,
    defaultIcon: string -> string,
    limitVisibilityChange: bool,
    hideLyricWhenLockScreen: bool)

  datatype Orientation = Landscape | Portrait | OtherOrientation

  /** A host object probed by reflection for its fullscreen flags: `CentralSurfacesImpl`
      (fields `mIsFullscreen` / `mTransientShown`) on older hosts, the status-bar mode
      repository's `defaultDisplay` (`isInFullscreenMode` / `isTransientShown`) on newer
      ones. `hasFullscreenField` is what `existField` finds. */
  datatype ProbedObject = ProbedObject(hasFullscreenField: bool, isFullscreen: bool, transientShown: bool)

  datatype Rect = Rect(left: int, top: int, right: int, bottom: int)

  /** What the host shows at the moment of an event. `measure(clock, text)` is the
      truncated paint width of `text` in the style of the container whose clock is
      `clock`; `targetWidth` and `layoutBounds` give a container's target width and its
      layout's bounds, by target. `displayWidth` and `displayHeight` are the display
      metrics the controller reads once, at their first use (`by lazy`): they are the same
      on every event, whatever the orientation is by then. */
  datatype Host = Host(
    centralSurfaces: Option<ProbedObject>,
    defaultDisplay: Option<ProbedObject>,
    autoHideController: bool,
    orientation: Orientation,
    displayWidth: int,
    displayHeight: int,
    measure: (ViewId, string) -> nat,
    targetWidth: ViewId -> int,
    layoutBounds: ViewId -> Rect)

  /** A `SuperLyricData` event. `playbackState` is the state code, null when absent. */
  datatype SuperLyricData = SuperLyricData(
    packageName: string,
    lyric: string,
    title: string,
    artist: string,
    album: string,
    base64Icon: string,
    delay: int,
    playbackState: Option<int>,
    isExistMediaMetadata: bool)

  /** `PlaybackState.STATE_BUFFERING`. */
  const STATE_BUFFERING: int := 6
  /** Key codes injected with `input keyevent`. */
  const KEYCODE_MEDIA_PLAY_PAUSE: int := 85
  const KEYCODE_MEDIA_NEXT: int := 87
  const KEYCODE_MEDIA_PREVIOUS: int := 88
  /** Touch thresholds: pixels for a move, milliseconds for a long click. */
  const MoveThreshold: int := 50
  const LongClickMillis: int := 500
  /** The package whose own icon is never used. */
  const SaltMusic: string := "com.salt.music"

  datatype Point = Point(x: int, y: int)

  datatype ScreenAction = ScreenOff | UserPresent

  datatype TitleOverlay = TitleHidden | TitleShown(text: string)

  // ---------------------------------------------------------------------------
  // Containers
  // ---------------------------------------------------------------------------

  /** One `LyricContainer`: the clock it stands beside, the parent view it was inserted
      into, and the state this controller gave its views: layout and icon visibility,
      the clock's visibility, and the lyric view's text, width and scroll speed (`None`
      while never set). */
  datatype LyricContainer = LyricContainer(
    clock: ViewId,
    target: ViewId,
    layoutVisible: bool,
    iconVisible: bool,
    clockVisible: bool,
    text: string,
    width: Option<int>,
    speed: Option<real>)

  /** `createContainer`: icon and layout start GONE. */
  function NewContainer(clock: ViewId, target: ViewId): LyricContainer
  {
    LyricContainer(clock, target, false, false, true, "", None, None)
  }

  /** `containers.any { it.target === target }`. */
  function HasTarget(cs: seq<LyricContainer>, target: ViewId): (r: bool)
    ensures r <==> exists k :: 0 <= k < |cs| && cs[k].target == target
  {
    if cs == [] then false else cs[0].target == target || HasTarget(cs[1..], target)
  }

  /** `containers.any { it.clock == view }`. */
  function HasClock(cs: seq<LyricContainer>, view: ViewId): (r: bool)
    ensures r <==> exists k :: 0 <= k < |cs| && cs[k].clock == view
  {
    if cs == [] then false else cs[0].clock == view || HasClock(cs[1..], view)
  }

  /** No two containers share a target. */
  ghost predicate DistinctTargets(cs: seq<LyricContainer>)
  {
    forall j, k :: 0 <= j < |cs| && 0 <= k < |cs| && cs[j].target == cs[k].target ==> j == k
  }

  /** The registry after `addContainerIfAbsent(clock, target)`. */
  function Register(cs: seq<LyricContainer>, clock: ViewId, target: ViewId): (r: seq<LyricContainer>)
    ensures HasTarget(r, target)
    ensures |cs| <= |r| <= |cs| + 1 && r[..|cs|] == cs
    ensures HasTarget(cs, target) ==> r == cs
    ensures !HasTarget(cs, target) ==> r == cs + [NewContainer(clock, target)]
    ensures DistinctTargets(cs) ==> DistinctTargets(r)
  {
    if HasTarget(cs, target) then cs
    else
      var r := cs + [NewContainer(clock, target)];
      assert r[|cs|].target == target;
      assert forall k :: 0 <= k < |cs| ==> r[k] == cs[k];
      r
  }

  /** Registering a target twice is registering it once, whatever the clocks. */
  lemma RegisterIsIdempotent(cs: seq<LyricContainer>, clock1: ViewId, clock2: ViewId, target: ViewId)
    ensures Register(Register(cs, clock1, target), clock2, target) == Register(cs, clock1, target)
  {
  }

  /** The resource names of the status-bar clocks that get a container. */
  predicate IsClockName(name: string)
  {
    name == "clock" || name == "pad_clock"
  }

  predicate Inside(r: Rect, x: int, y: int)
  {
    r.left <= x <= r.right && r.top <= y <= r.bottom
  }

  // ---------------------------------------------------------------------------
  // Pure decisions
  // ---------------------------------------------------------------------------

  /** `isInFullScreenMode()`'s reading of the host: (fullscreen, status bar shown) from the
      first object that has the fields, or nothing. */
  function ProbeFullscreen(host: Host): Option<(bool, bool)>
  {
    if ExistField(host.centralSurfaces, (p: ProbedObject) => p.hasFullscreenField) then
      Some((host.centralSurfaces.value.isFullscreen, host.centralSurfaces.value.transientShown))
    else if ExistField(host.defaultDisplay, (p: ProbedObject) => p.hasFullscreenField) then
      Some((host.defaultDisplay.value.isFullscreen, host.defaultDisplay.value.transientShown))
    else
      None
  }

  function FullscreenNow(host: Host): bool
  {
    var p := ProbeFullscreen(host);
    p.Some? && p.value.0
  }

  /** `statusBarShowing` after a probe: taken from the probed object when there is one. */
  function StatusBarAfter(host: Host, statusBarShowing: bool): bool
  {
    var p := ProbeFullscreen(host);
    if p.Some? then p.value.1 else statusBarShowing
  }

  /** The older host's fields win over the newer one's; without either the host is never
      fullscreen and the status-bar flag is kept. */
  lemma ProbeStrategies(host: Host, statusBarShowing: bool)
    ensures host.centralSurfaces.None? && host.defaultDisplay.None? ==>
      !FullscreenNow(host) && StatusBarAfter(host, statusBarShowing) == statusBarShowing
    ensures host.centralSurfaces.Some? && host.centralSurfaces.value.hasFullscreenField ==>
      FullscreenNow(host) == host.centralSurfaces.value.isFullscreen &&
      StatusBarAfter(host, statusBarShowing) == host.centralSurfaces.value.transientShown
    ensures StatusBarAfter(host, StatusBarAfter(host, statusBarShowing)) == StatusBarAfter(host, statusBarShowing)
  {
  }

  predicate Oriented(host: Host)
  {
    host.orientation == Landscape || host.orientation == Portrait
  }

  /** `updateLyricState`'s choice between `showLyric` and `hideLyric`. */
  function ShowDecision(showLyric: bool, isMusicPlaying: bool, fullscreenOriented: bool, statusBarShowing: bool): (show: bool)
    ensures show <==> showLyric && isMusicPlaying && (fullscreenOriented ==> statusBarShowing)
  {
    if fullscreenOriented then statusBarShowing && showLyric && isMusicPlaying
    else showLyric && isMusicPlaying
  }

  /** The three kinds of touch-up. */
  datatype Gesture = Move | LongClick | Tap

  function AbsInt(x: int): int { if x < 0 then -x else x }

  /** A move is more than 50 px on either axis; otherwise a press longer than 500 ms is a
      long click; anything else is a tap. */
  function Classify(down: Point, up: Point, downTime: int, eventTime: int): (g: Gesture)
    ensures g == Move <==> AbsInt(down.y - up.y) > MoveThreshold || AbsInt(down.x - up.x) > MoveThreshold
    ensures g == LongClick <==>
      AbsInt(down.y - up.y) <= MoveThreshold && AbsInt(down.x - up.x) <= MoveThreshold &&
      eventTime - downTime > LongClickMillis
  {
    var isMove := AbsInt(down.y - up.y) > 50 || AbsInt(down.x - up.x) > 50;
    var isLongClick := eventTime - downTime > 500;
    if isMove then Move else if isLongClick then LongClick else Tap
  }

  /** At the boundaries: 50 px is not a move, 51 px is; 500 ms is not a long click,
      501 ms is; a move held long is still a move. */
  lemma ClassifyBoundaries(p: Point, t: int)
    ensures Classify(p, Point(p.x + 50, p.y - 50), t, t + 500) == Tap
    ensures Classify(p, Point(p.x, p.y + 51), t, t) == Move
    ensures Classify(p, p, t, t + 501) == LongClick
    ensures Classify(p, Point(p.x - 51, p.y), t, t + 10000) == Move
  {
  }

  /** What a touch-up asks for. */
  datatype TouchAction = NoAction | SendKey(code: int) | ShowAgain | HideIfHit

  /** The decision of the touch hook on `ACTION_UP`, from the press point `down` and the
      raw release point `up`. */
  function DecideTouchUp(cfg: Config, isMusicPlaying: bool, isHiding: bool,
                         down: Point, up: Point, downTime: int, eventTime: int): (a: TouchAction)
    ensures var g := Classify(down, up, downTime, eventTime);
      (a.SendKey? && a.code != KEYCODE_MEDIA_PLAY_PAUSE) <==>
        (g == Move && cfg.slideStatusBarCutSongs && isMusicPlaying && !isHiding &&
         AbsInt(down.y - up.y) <= cfg.slideStatusBarCutSongsYRadius &&
         AbsInt(down.x - up.x) > cfg.slideStatusBarCutSongsXRadius)
    ensures a.SendKey? ==> a.code in {KEYCODE_MEDIA_PLAY_PAUSE, KEYCODE_MEDIA_NEXT, KEYCODE_MEDIA_PREVIOUS}
    ensures a == SendKey(KEYCODE_MEDIA_NEXT) ==> down.x > up.x
    ensures a == SendKey(KEYCODE_MEDIA_PREVIOUS) ==> down.x <= up.x
    ensures a == SendKey(KEYCODE_MEDIA_PLAY_PAUSE) <==>
      Classify(down, up, downTime, eventTime) == LongClick && cfg.longClickStatusBarStop && !isHiding
    ensures a == ShowAgain <==>
      Classify(down, up, downTime, eventTime) == Tap && cfg.clickStatusBarToHideLyric && isMusicPlaying && isHiding
    ensures a == HideIfHit <==>
      Classify(down, up, downTime, eventTime) == Tap && cfg.clickStatusBarToHideLyric && isMusicPlaying && !isHiding
  {
    match Classify(down, up, downTime, eventTime)
    case Move =>
      if cfg.slideStatusBarCutSongs && isMusicPlaying && !isHiding
         && AbsInt(down.y - up.y) <= cfg.slideStatusBarCutSongsYRadius then
        var i := down.x - up.x;
        if AbsInt(i) > cfg.slideStatusBarCutSongsXRadius then
          SendKey(if i > 0 then KEYCODE_MEDIA_NEXT else KEYCODE_MEDIA_PREVIOUS)
        else NoAction
      else NoAction
    case LongClick =>
      if cfg.longClickStatusBarStop && !isHiding then SendKey(KEYCODE_MEDIA_PLAY_PAUSE) else NoAction
    case Tap =>
      if cfg.clickStatusBarToHideLyric && isMusicPlaying then
        (if isHiding then ShowAgain else HideIfHit)
      else NoAction
  }

  /** A move never stops playback, however long the press. */
  lemma MoveTakesPriority(cfg: Config, isMusicPlaying: bool, isHiding: bool,
                          down: Point, up: Point, downTime: int, eventTime: int)
    requires AbsInt(down.x - up.x) > 50
    ensures DecideTouchUp(cfg, isMusicPlaying, isHiding, down, up, downTime, eventTime)
      != SendKey(KEYCODE_MEDIA_PLAY_PAUSE)
  {
  }

  /** `changeIcon`'s choice: an "all icons" override wins; Salt Music always gets its preset;
      other players' own icon is used when they send one. */
  function IconChoice(changeAllIcons: string, defaultIcon: string -> string,
                      playingApp: string, base64Icon: string): (icon: string)
    ensures changeAllIcons != "" ==> icon == changeAllIcons
    ensures changeAllIcons == "" && playingApp == SaltMusic ==> icon == defaultIcon(playingApp)
    ensures changeAllIcons == "" && playingApp != SaltMusic ==>
      icon == (if base64Icon != "" then base64Icon else defaultIcon(playingApp))
  {
    if playingApp == SaltMusic then
      (if changeAllIcons != "" then changeAllIcons else defaultIcon(playingApp))
    else
      (if changeAllIcons != "" then changeAllIcons
       else if base64Icon != "" then base64Icon else defaultIcon(playingApp))
  }

  // ---------------------------------------------------------------------------
  // Per-container updates
  // ---------------------------------------------------------------------------

  function Measure(host: Host, c: LyricContainer, lyric: string): nat
  {
    host.measure(c.clock, lyric)
  }

  function Scaled(cfg: Config, host: Host): int
  {
    ScaleWidth(cfg.lyricWidth, host.orientation == Landscape, host.displayWidth, host.displayHeight)
  }

  /** `getLyricWidth(c, lyric)`'s result. */
  function WidthFor(cfg: Config, host: Host, c: LyricContainer, lyric: string, superIslandWidth: int): int
  {
    LyricWidth(cfg.lyricWidth, cfg.fixedLyricWidth, Measure(host, c, lyric), host.targetWidth(c.target),
               cfg.lyricStartMargins, cfg.lyricEndMargins, superIslandWidth, Scaled(cfg, host))
  }

  /** A container after `showLyric(lyric, delay)`: the lyric view gets its width and the
      new text, keeps its speed when static mode sets none, the layout shows and the clock
      hides when configured to. */
  function Shown(c: LyricContainer, lyric: string, delay: int, cfg: Config, host: Host, superIslandWidth: int): (r: LyricContainer)
    ensures r.clock == c.clock && r.target == c.target && r.iconVisible == c.iconVisible
    ensures r.text == lyric && r.layoutVisible
    ensures r.width == Some(WidthFor(cfg, host, c, lyric, superIslandWidth))
    ensures cfg.hideTime ==> !r.clockVisible
    ensures !cfg.hideTime ==> r.clockVisible == c.clockVisible
    ensures var w := WidthFor(cfg, host, c, lyric, superIslandWidth);
      var chosen := ShowLyricSpeed(Measure(host, c, lyric) - w, w, delay, cfg.dynamicLyricSpeed, cfg.lyricSpeed);
      r.speed == if chosen.Some? then chosen else c.speed
  {
    var w := WidthFor(cfg, host, c, lyric, superIslandWidth);
    var chosen := ShowLyricSpeed(Measure(host, c, lyric) - w, w, delay, cfg.dynamicLyricSpeed, cfg.lyricSpeed);
    c.(width := Some(w),
       speed := if chosen.Some? then chosen else c.speed,
       text := lyric,
       layoutVisible := true,
       clockVisible := if cfg.hideTime then false else c.clockVisible)
  }

  /** A container after `hideLyric`: clock back, text cleared, layout hidden. */
  function Hidden(c: LyricContainer): (r: LyricContainer)
    ensures r.clock == c.clock && r.target == c.target
    ensures !r.layoutVisible && r.text == "" && r.clockVisible
    ensures r.width == c.width && r.speed == c.speed && r.iconVisible == c.iconVisible
  {
    c.(clockVisible := true, text := "", layoutVisible := false)
  }

  /** A container after a width-affecting change while `lyric` is current (`updateConfig`
      and the `superIslandWidth` observer). */
  function Refit(c: LyricContainer, lyric: string, cfg: Config, host: Host, superIslandWidth: int): (r: LyricContainer)
    ensures r.clock == c.clock && r.target == c.target && r.text == c.text
    ensures r.layoutVisible == c.layoutVisible && r.clockVisible == c.clockVisible && r.iconVisible == c.iconVisible
    ensures r.width == Some(WidthFor(cfg, host, c, lyric, superIslandWidth))
    ensures r.speed.Some?
    ensures var w := WidthFor(cfg, host, c, lyric, superIslandWidth);
      r.speed.value == RefitSpeed(Measure(host, c, lyric) - w, w, cfg.dynamicLyricSpeed, cfg.lyricSpeed)
  {
    var w := WidthFor(cfg, host, c, lyric, superIslandWidth);
    c.(width := Some(w), speed := Some(RefitSpeed(Measure(host, c, lyric) - w, w, cfg.dynamicLyricSpeed, cfg.lyricSpeed)))
  }

  /** A container after the per-container part of `updateConfig`. */
  function Configured(c: LyricContainer, lastLyric: string, cfg: Config, host: Host, superIslandWidth: int): (r: LyricContainer)
    ensures r.clock == c.clock && r.target == c.target && r.text == c.text
    ensures r.layoutVisible == c.layoutVisible && r.clockVisible == c.clockVisible
    ensures r.iconVisible == cfg.iconSwitch
    ensures lastLyric != "" ==> r.width == Some(WidthFor(cfg, host, c, lastLyric, superIslandWidth))
    ensures lastLyric != "" ==> var w := WidthFor(cfg, host, c, lastLyric, superIslandWidth);
      r.speed == Some(RefitSpeed(Measure(host, c, lastLyric) - w, w, cfg.dynamicLyricSpeed, cfg.lyricSpeed))
    ensures lastLyric == "" ==> r.width == c.width
    ensures lastLyric == "" && !cfg.dynamicLyricSpeed ==> r.speed == Some(cfg.lyricSpeed as real)
    ensures lastLyric == "" && cfg.dynamicLyricSpeed ==> r.speed == c.speed
  {
    var c1 := if !cfg.dynamicLyricSpeed then c.(speed := Some(cfg.lyricSpeed as real)) else c;
    var c2 := if lastLyric != "" then Refit(c1, lastLyric, cfg, host, superIslandWidth) else c1;
    c2.(iconVisible := cfg.iconSwitch)
  }

  function ShownAll(cs: seq<LyricContainer>, lyric: string, delay: int, cfg: Config, host: Host, superIslandWidth: int): seq<LyricContainer>
  {
    seq(|cs|, k requires 0 <= k < |cs| => Shown(cs[k], lyric, delay, cfg, host, superIslandWidth))
  }

  function HiddenAll(cs: seq<LyricContainer>): seq<LyricContainer>
  {
    seq(|cs|, k requires 0 <= k < |cs| => Hidden(cs[k]))
  }

  function RefitAll(cs: seq<LyricContainer>, lyric: string, cfg: Config, host: Host, superIslandWidth: int): seq<LyricContainer>
  {
    seq(|cs|, k requires 0 <= k < |cs| => Refit(cs[k], lyric, cfg, host, superIslandWidth))
  }

  function ConfiguredAll(cs: seq<LyricContainer>, lastLyric: string, cfg: Config, host: Host, superIslandWidth: int): seq<LyricContainer>
  {
    seq(|cs|, k requires 0 <= k < |cs| => Configured(cs[k], lastLyric, cfg, host, superIslandWidth))
  }

  /** The view-related part of the controller's state, as one value. */
  datatype ViewState = ViewState(
    statusBarShowing: bool,
    isHiding: bool,
    containers: seq<LyricContainer>,
    theoreticalWidth: int,
    titleOverlay: TitleOverlay,
    bigTimeVisible: map<ViewId, bool>)

  /** The big-clock visibilities after `getNotificationBigTime()?.visibility = v`. */
  function WithBigTime(vis: map<ViewId, bool>, ref: Option<ViewId>, v: bool): map<ViewId, bool>
  {
    if ref.Some? then vis[ref.value := v] else vis
  }

  /** What showing and hiding read and leave unchanged: the configuration, the island
      width, the playing and screen-lock flags, the current lyric and the referenced big
      clock. */
  datatype Context = Context(
    config: Config,
    superIslandWidth: int,
    isMusicPlaying: bool,
    isScreenLocked: bool,
    lastLyric: string,
    bigTimeRef: Option<ViewId>)

  /** `showLyric`'s guard. */
  predicate ShowAllowed(v: ViewState, ctx: Context, lyric: string)
  {
    |v.containers| > 0 && ctx.isMusicPlaying && lyric != "" && !ctx.isScreenLocked
  }

  /** The state after `showLyric(lyric, delay)`: every container shows `lyric`, the
      controller is no longer hiding, the last container's measurement is kept as the
      theoretical width and the shade's big clock is hidden; nothing happens when the
      guard fails. */
  function AfterShow(v: ViewState, ctx: Context, lyric: string, delay: int, host: Host): (r: ViewState)
    ensures !ShowAllowed(v, ctx, lyric) ==> r == v
    ensures r.statusBarShowing == v.statusBarShowing && r.titleOverlay == v.titleOverlay
    ensures |r.containers| == |v.containers|
    ensures ShowAllowed(v, ctx, lyric) ==>
      && !r.isHiding
      && (forall k :: 0 <= k < |r.containers| ==>
            r.containers[k].layoutVisible && r.containers[k].text == lyric &&
            r.containers[k].clock == v.containers[k].clock && r.containers[k].target == v.containers[k].target)
      && (ctx.config.hideTime ==> forall k :: 0 <= k < |r.containers| ==> !r.containers[k].clockVisible)
      && (ctx.bigTimeRef.Some? ==> r.bigTimeVisible == v.bigTimeVisible[ctx.bigTimeRef.value := false])
  {
    if ShowAllowed(v, ctx, lyric) then
      v.(isHiding := false,
         containers := ShownAll(v.containers, lyric, delay, ctx.config, host, ctx.superIslandWidth),
         theoreticalWidth := Measure(host, v.containers[|v.containers| - 1], lyric),
         bigTimeVisible := WithBigTime(v.bigTimeVisible, ctx.bigTimeRef, false))
    else v
  }

  /** The state after `hideLyric()`: unless there is no container or it is already hiding,
      every container hides its lyric and shows its clock again, the title overlay goes
      when titles are on, and the shade's big clock shows. */
  function AfterHide(v: ViewState, ctx: Context): (r: ViewState)
    ensures |v.containers| == 0 || v.isHiding ==> r == v
    ensures r.statusBarShowing == v.statusBarShowing && r.theoreticalWidth == v.theoreticalWidth
    ensures |r.containers| == |v.containers|
    ensures |v.containers| > 0 && !v.isHiding ==>
      && r.isHiding
      && (forall k :: 0 <= k < |r.containers| ==>
            !r.containers[k].layoutVisible && r.containers[k].text == "" && r.containers[k].clockVisible &&
            r.containers[k].clock == v.containers[k].clock && r.containers[k].target == v.containers[k].target)
      && (ctx.config.titleSwitch ==> r.titleOverlay == TitleHidden)
      && (!ctx.config.titleSwitch ==> r.titleOverlay == v.titleOverlay)
      && (ctx.bigTimeRef.Some? ==> r.bigTimeVisible == v.bigTimeVisible[ctx.bigTimeRef.value := true])
  {
    if |v.containers| == 0 || v.isHiding then v
    else
      v.(isHiding := true,
         containers := HiddenAll(v.containers),
         titleOverlay := if ctx.config.titleSwitch then TitleHidden else v.titleOverlay,
         bigTimeVisible := WithBigTime(v.bigTimeVisible, ctx.bigTimeRef, true))
  }

  /** The state after `updateLyricState(showLyric, delay)`: the fullscreen probe may refresh
      the status-bar flag, then the lyric is shown or hidden as `ShowDecision` says. */
  function AfterUpdate(v: ViewState, ctx: Context, showLyric: bool, delay: int, host: Host): (r: ViewState)
    ensures r.statusBarShowing == StatusBarAfter(host, v.statusBarShowing)
    ensures var v1 := v.(statusBarShowing := r.statusBarShowing);
      !showLyric || !ctx.isMusicPlaying || (FullscreenNow(host) && Oriented(host) && !r.statusBarShowing) ==>
        r == AfterHide(v1, ctx)
    ensures var v1 := v.(statusBarShowing := r.statusBarShowing);
      showLyric && ctx.isMusicPlaying && (FullscreenNow(host) && Oriented(host) ==> r.statusBarShowing) ==>
        r == AfterShow(v1, ctx, ctx.lastLyric, delay, host)
  {
    var v1 := v.(statusBarShowing := StatusBarAfter(host, v.statusBarShowing));
    if ShowDecision(showLyric, ctx.isMusicPlaying, FullscreenNow(host) && Oriented(host), v1.statusBarShowing)
    then AfterShow(v1, ctx, ctx.lastLyric, delay, host)
    else AfterHide(v1, ctx)
  }

  /** Showing every container keeps their targets, so it keeps them distinct. */
  lemma UpdatesKeepTargets(cs: seq<LyricContainer>, lyric: string, delay: int, cfg: Config, host: Host, island: int)
    requires DistinctTargets(cs)
    ensures DistinctTargets(ShownAll(cs, lyric, delay, cfg, host, island))
    ensures DistinctTargets(HiddenAll(cs))
    ensures DistinctTargets(RefitAll(cs, lyric, cfg, host, island))
    ensures DistinctTargets(ConfiguredAll(cs, lyric, cfg, host, island))
  {
  }

  /** Showing the same lyric again leaves a container as the first showing left it: the
      width and speed depend only on the container's clock and target, which showing keeps. */
  lemma ShownIsIdempotent(c: LyricContainer, lyric: string, delay: int, cfg: Config, host: Host, island: int)
    ensures Shown(Shown(c, lyric, delay, cfg, host, island), lyric, delay, cfg, host, island)
         == Shown(c, lyric, delay, cfg, host, island)
  {
  }

  /** `showLyric` with the lyric already shown changes nothing. */
  lemma ShowIsIdempotent(v: ViewState, ctx: Context, lyric: string, delay: int, host: Host)
    ensures AfterShow(AfterShow(v, ctx, lyric, delay, host), ctx, lyric, delay, host)
         == AfterShow(v, ctx, lyric, delay, host)
  {
    if ShowAllowed(v, ctx, lyric) {
      var once := AfterShow(v, ctx, lyric, delay, host);
      var twice := AfterShow(once, ctx, lyric, delay, host);
      forall k | 0 <= k < |v.containers|
        ensures twice.containers[k] == once.containers[k]
      {
        ShownIsIdempotent(v.containers[k], lyric, delay, ctx.config, host, ctx.superIslandWidth);
      }
      assert twice.containers == once.containers;
    }
  }

  /** `hideLyric` twice is `hideLyric` once. */
  lemma HideIsIdempotent(v: ViewState, ctx: Context)
    ensures AfterHide(AfterHide(v, ctx), ctx) == AfterHide(v, ctx)
  {
  }

  /** Whatever the host shows, an update while no music plays (after `onStop`, the
      screen going off or a tap that hides) leaves every container with its lyric hidden
      and its clock visible. */
  lemma StoppedUpdateHides(v: ViewState, ctx: Context, showLyric: bool, delay: int, host: Host)
    requires !ctx.isMusicPlaying || !showLyric
    requires v.isHiding ==> forall k :: 0 <= k < |v.containers| ==> !v.containers[k].layoutVisible && v.containers[k].text == ""
    ensures var r := AfterUpdate(v, ctx, showLyric, delay, host);
      forall k :: 0 <= k < |r.containers| ==>
        !r.containers[k].layoutVisible && r.containers[k].text == "" &&
        (v.isHiding || r.containers[k].clockVisible)
    ensures |v.containers| > 0 ==> AfterUpdate(v, ctx, showLyric, delay, host).isHiding
  {
    var v1 := v.(statusBarShowing := StatusBarAfter(host, v.statusBarShowing));
    assert AfterUpdate(v, ctx, showLyric, delay, host) == AfterHide(v1, ctx);
  }

  /** In fullscreen, portrait or landscape, with the status bar hidden by the host, an
      update never shows the lyric, even when asked to. */
  lemma FullscreenKeepsLyricHidden(v: ViewState, ctx: Context, delay: int, host: Host)
    requires FullscreenNow(host) && Oriented(host) && !StatusBarAfter(host, v.statusBarShowing)
    requires |v.containers| > 0
    requires v.isHiding ==> forall k :: 0 <= k < |v.containers| ==> !v.containers[k].layoutVisible
    ensures AfterUpdate(v, ctx, true, delay, host).isHiding
    ensures forall k :: 0 <= k < |v.containers| ==> !AfterUpdate(v, ctx, true, delay, host).containers[k].layoutVisible
  {
    var v1 := v.(statusBarShowing := StatusBarAfter(host, v.statusBarShowing));
    assert AfterUpdate(v, ctx, true, delay, host) == AfterHide(v1, ctx);
  }

  /** Inside `updateConfig` the island observer's refit is posted behind the configuration
      loop; with the same lyric, configuration and island width it finds every container
      already fitted and changes nothing. */
  lemma RefitAfterConfiguredIsNoOp(c: LyricContainer, lyric: string, cfg: Config, host: Host, superIslandWidth: int)
    requires lyric != ""
    ensures Refit(Configured(c, lyric, cfg, host, superIslandWidth), lyric, cfg, host, superIslandWidth)
         == Configured(c, lyric, cfg, host, superIslandWidth)
  {
  }

  /** The same for every container of a registry. */
  lemma RefitAllAfterConfiguredAllIsNoOp(cs: seq<LyricContainer>, lyric: string, cfg: Config, host: Host, superIslandWidth: int)
    requires lyric != ""
    ensures RefitAll(ConfiguredAll(cs, lyric, cfg, host, superIslandWidth), lyric, cfg, host, superIslandWidth)
         == ConfiguredAll(cs, lyric, cfg, host, superIslandWidth)
  {
    forall k | 0 <= k < |cs|
      ensures Refit(Configured(cs[k], lyric, cfg, host, superIslandWidth), lyric, cfg, host, superIslandWidth)
           == Configured(cs[k], lyric, cfg, host, superIslandWidth)
    {
      RefitAfterConfiguredIsNoOp(cs[k], lyric, cfg, host, superIslandWidth);
    }
  }

  /** Had the observer's refit run before the loop instead, the loop would overwrite it:
      the two orders agree. */
  lemma ConfiguredAbsorbsRefit(c: LyricContainer, lyric: string, cfg: Config, host: Host, superIslandWidth: int)
    requires lyric != ""
    ensures Configured(Refit(c, lyric, cfg, host, superIslandWidth), lyric, cfg, host, superIslandWidth)
         == Refit(Configured(c, lyric, cfg, host, superIslandWidth), lyric, cfg, host, superIslandWidth)
  {
    RefitAfterConfiguredIsNoOp(c, lyric, cfg, host, superIslandWidth);
  }

  // ---------------------------------------------------------------------------
  // The controller
  // ---------------------------------------------------------------------------

  class SystemUILyric {
    const xiaomi: XiaomiHooks

    var config: Config
    /** Taken from the configuration once, when the controller is created. */
    var iconSwitch: bool
    var containers: seq<LyricContainer>

    var lastLyric: string
    var title: string
    var titleOverlay: TitleOverlay
    var lastBase64Icon: string
    var isScreenLocked: bool
    var statusBarShowing: bool
    var isMusicPlaying: bool
    var isHiding: bool
    var theoreticalWidth: int
    var superIslandWidth: int
    var lastArtist: string
    var lastAlbum: string
    var playingApp: string

    /** The data captured by the posted title runnable, if one is pending. */
    var pendingTitle: Option<SuperLyricData>
    /** Number of pending `timeoutRestore` messages in the handler's queue. */
    var timeoutMessages: nat
    /** The press point recorded on `ACTION_DOWN` (`point`, unset until the first press). */
    var point: Option<Point>
    var statusBatteryContainer: Option<ViewId>
    /** Whether the screen-lock receiver was registered (`hideLyricWhenLockScreen`). */
    var screenLockReceiverRegistered: bool
    /** Whether the visibility-limiting hook was installed (`limitVisibilityChange`). */
    var limitHookInstalled: bool
    /** Key events injected so far, oldest first. */
    var keyEvents: seq<int>
    /** Number of `touchAutoHide` calls made on the auto-hide controller. */
    var autoHideTouches: nat

    /** Targets are distinct; at most one timeout is pending; a remembered lyric means music
        is playing; while hiding, every layout is hidden and every lyric view empty. */
    ghost predicate Valid()
      reads this
    {
      && DistinctTargets(containers)
      && timeoutMessages <= 1
      && (lastLyric != "" ==> isMusicPlaying)
      && (isHiding ==> forall k :: 0 <= k < |containers| ==> !containers[k].layoutVisible && containers[k].text == "")
    }

    constructor (cfg: Config, xiaomi: XiaomiHooks)
      ensures Valid()
      ensures this.xiaomi == xiaomi && config == cfg && iconSwitch == cfg.iconSwitch
      ensures containers == [] && lastLyric == "" && !isMusicPlaying && !isHiding && !isScreenLocked
      ensures statusBarShowing && playingApp == "" && pendingTitle == None && timeoutMessages == 0
      ensures screenLockReceiverRegistered == cfg.hideLyricWhenLockScreen
    {
      this.xiaomi := xiaomi;
      config := cfg;
      iconSwitch := cfg.iconSwitch;
      containers := [];
      lastLyric := "";
      title := "";
      titleOverlay := TitleHidden;
      lastBase64Icon := "";
      isScreenLocked := false;
      statusBarShowing := true;
      isMusicPlaying := false;
      isHiding := false;
      theoreticalWidth := 0;
      superIslandWidth := 0;
      lastArtist := "";
      lastAlbum := "";
      playingApp := "";
      pendingTitle := None;
      timeoutMessages := 0;
      point := None;
      statusBatteryContainer := None;
      screenLockReceiverRegistered := cfg.hideLyricWhenLockScreen;
      limitHookInstalled := false;
      keyEvents := [];
      autoHideTouches := 0;
    }

    /** `isClockView(view)`. */
    function IsClockView(view: Option<ViewId>): (r: bool)
      reads this
      ensures view.None? || containers == [] ==> !r
      ensures r <==> view.Some? && exists k :: 0 <= k < |containers| && containers[k].clock == view.value
    {
      if view.None? || |containers| == 0 then false else HasClock(containers, view.value)
    }

    // ----- registry ---------------------------------------------------------

    /** `addContainerIfAbsent(clock, target)`. */
    method AddContainerIfAbsent(clock: ViewId, target: ViewId)
      requires Valid()
      modifies this`containers
      ensures Valid()
      ensures containers == Register(old(containers), clock, target)
    {
      if HasTarget(containers, target) {
        return;
      }
      var container := NewContainer(clock, target);
      containers := containers + [container];
    }

    /** The after-hook on the `MiuiClock` constructor, with its posted block run inline: a
        clock named `clock` or `pad_clock` whose parent is a `LinearLayout` (`parent`) gets a
        container; the first one also installs the remaining hooks and applies the
        configuration (`prefs`, the reloaded preferences). */
    method OnClockCreated(clock: ViewId, resourceName: string, parent: Option<ViewId>, prefs: Config, host: Host)
      requires Valid()
      modifies this`containers, this`limitHookInstalled, this`config, this`superIslandWidth, this`theoreticalWidth
      ensures Valid()
      ensures !(IsClockName(resourceName) && parent.Some?) ==> unchanged(this)
      ensures IsClockName(resourceName) && parent.Some? && old(containers) != [] ==>
        && containers == Register(old(containers), clock, parent.value)
        && config == old(config) && limitHookInstalled == old(limitHookInstalled)
        && superIslandWidth == old(superIslandWidth) && theoreticalWidth == old(theoreticalWidth)
      ensures IsClockName(resourceName) && parent.Some? && old(containers) == [] ==>
        && config == prefs && limitHookInstalled == old(config.limitVisibilityChange)
        && superIslandWidth == ReservedIslandWidth(xiaomi.lastIslandWidth, prefs.islandOffset)
        && containers == ConfiguredAll(Register(old(containers), clock, parent.value), lastLyric, prefs, host, superIslandWidth)
    {
      if !(IsClockName(resourceName)) || parent.None? {
        return;
      }
      var first := |containers| == 0;
      AddContainerIfAbsent(clock, parent.value);
      if first {
        LyricHookInit(prefs, host);
      }
    }

    /** `lyricHookInit()`, reduced to its effect on this state: the visibility-limiting hook
        is installed when the configuration (as loaded before this call) asks for it, then
        the reloaded configuration `prefs` is applied. */
    method LyricHookInit(prefs: Config, host: Host)
      requires Valid()
      modifies this`limitHookInstalled, this`config, this`superIslandWidth, this`containers, this`theoreticalWidth
      ensures Valid()
      ensures limitHookInstalled == old(config.limitVisibilityChange) && config == prefs
      ensures superIslandWidth == ReservedIslandWidth(xiaomi.lastIslandWidth, prefs.islandOffset)
      ensures containers == ConfiguredAll(old(containers), lastLyric, prefs, host, superIslandWidth)
    {
      limitHookInstalled := config.limitVisibilityChange;
      UpdateConfig(prefs, host);
    }

    // ----- show / hide ------------------------------------------------------

    /** The part of the state that showing and hiding the lyric changes. */
    ghost function View(): ViewState
      reads this, xiaomi
    {
      ViewState(statusBarShowing, isHiding, containers, theoreticalWidth, titleOverlay, xiaomi.bigTimeVisible)
    }

    /** The inputs of showing and hiding that they leave unchanged. */
    ghost function Ctx(): Context
      reads this, xiaomi
    {
      Context(config, superIslandWidth, isMusicPlaying, isScreenLocked, lastLyric, xiaomi.notificationBigTimeRef)
    }

    /** `getLyricWidth(container, lyric)`: records the measured width as
        `theoreticalWidth` and returns the width the lyric view gets. */
    method GetLyricWidth(c: LyricContainer, lyric: string, host: Host) returns (w: int)
      modifies this`theoreticalWidth
      ensures theoreticalWidth == Measure(host, c, lyric)
      ensures w == WidthFor(config, host, c, lyric, superIslandWidth)
    {
      var textWidth := host.measure(c.clock, lyric);
      theoreticalWidth := textWidth;
      if config.lyricWidth == 0 {
        var available := host.targetWidth(c.target) - config.lyricStartMargins - config.lyricEndMargins - superIslandWidth;
        var safeAvailable := Max(0, available);
        w := Min(textWidth, safeAvailable);
      } else if config.fixedLyricWidth {
        w := ScaleWidth(config.lyricWidth, host.orientation == Landscape, host.displayWidth, host.displayHeight);
      } else {
        w := Min(textWidth, ScaleWidth(config.lyricWidth, host.orientation == Landscape, host.displayWidth, host.displayHeight));
      }
    }

    /** One container's part of `showLyric(lyric, delay)`: width, speed, text, and the
        layout and clock visibilities. */
    method ShowOnContainer(c: LyricContainer, lyric: string, delay: int, host: Host) returns (r: LyricContainer)
      modifies this`theoreticalWidth
      ensures r == Shown(c, lyric, delay, config, host, superIslandWidth)
      ensures theoreticalWidth == Measure(host, c, lyric)
    {
      var lyricWidth := GetLyricWidth(c, lyric, host);
      var i := theoreticalWidth - lyricWidth;
      var speed := c.speed;
      if i > 0 && lyricWidth > 0 {
        if delay > 0 {
          var durationInSeconds := delay as real / 1000.0;
          if durationInSeconds > 0.0 {
            speed := Some(DelayModeSpeed(i, lyricWidth, delay));
          }
        } else if config.dynamicLyricSpeed {
          speed := Some(DynamicModeSpeed(i, lyricWidth));
        }
      } else {
        speed := Some(config.lyricSpeed as real);
      }
      var clockVisible := if config.hideTime then false else c.clockVisible;
      r := c.(width := Some(lyricWidth), speed := speed, text := lyric, layoutVisible := true, clockVisible := clockVisible);
    }

    /** The loop of `showLyric` over the containers. */
    method ShowOnContainers(lyric: string, delay: int, host: Host)
      requires Valid() && |containers| > 0
      modifies this`containers, this`theoreticalWidth
      ensures DistinctTargets(containers)
      ensures containers == ShownAll(old(containers), lyric, delay, config, host, superIslandWidth)
      ensures theoreticalWidth == Measure(host, old(containers)[|old(containers)| - 1], lyric)
    {
      var j := 0;
      while j < |containers|
        modifies this`containers, this`theoreticalWidth
        invariant 0 <= j <= |containers| == |old(containers)|
        invariant forall k :: 0 <= k < j ==>
          containers[k] == Shown(old(containers)[k], lyric, delay, config, host, superIslandWidth)
        invariant forall k :: j <= k < |containers| ==> containers[k] == old(containers)[k]
        invariant j > 0 ==> theoreticalWidth == Measure(host, old(containers)[j - 1], lyric)
      {
        var c := ShowOnContainer(containers[j], lyric, delay, host);
        containers := containers[j := c];
        j := j + 1;
      }
      UpdatesKeepTargets(old(containers), lyric, delay, config, host, superIslandWidth);
    }

    /** `showLyric(lyric, delay)`. */
    method ShowLyric(lyric: string, delay: int, host: Host)
      requires Valid()
      modifies this`isHiding, this`containers, this`theoreticalWidth, xiaomi`bigTimeVisible
      ensures Valid()
      ensures View() == AfterShow(old(View()), Ctx(), lyric, delay, host)
    {
      if |containers| == 0 || !isMusicPlaying || lyric == "" || isScreenLocked {
        return;
      }
      isHiding := false;
      ShowOnContainers(lyric, delay, host);
      xiaomi.SetBigTimeVisibility(false);
    }

    /** `hideLyric()`. */
    method HideLyric()
      requires Valid()
      modifies this`isHiding, this`containers, this`titleOverlay, xiaomi`bigTimeVisible
      ensures Valid()
      ensures View() == AfterHide(old(View()), Ctx())
    {
      if |containers| == 0 || isHiding {
        return;
      }
      isHiding := true;
      var j := 0;
      while j < |containers|
        modifies this`containers
        invariant 0 <= j <= |containers| == |old(containers)|
        invariant forall k :: 0 <= k < j ==> containers[k] == Hidden(old(containers)[k])
        invariant forall k :: j <= k < |containers| ==> containers[k] == old(containers)[k]
      {
        var c := containers[j];
        containers := containers[j := c.(clockVisible := true, text := "", layoutVisible := false)];
        j := j + 1;
      }
      UpdatesKeepTargets(old(containers), "", 0, config, Host(None, None, false, OtherOrientation, 0, 0, (v, s) => 0, v => 0, v => Rect(0, 0, 0, 0)), 0);
      if config.titleSwitch {
        titleOverlay := TitleHidden;
      }
      xiaomi.SetBigTimeVisibility(true);
    }

    /** `isInFullScreenMode()`: probes the host and, when it finds the fields, also takes
        the status bar's shown flag from it. */
    method IsInFullScreenMode(host: Host) returns (fullscreen: bool)
      modifies this`statusBarShowing
      ensures fullscreen == FullscreenNow(host)
      ensures statusBarShowing == StatusBarAfter(host, old(statusBarShowing))
    {
      fullscreen := false;
      if ExistField(host.centralSurfaces, (p: ProbedObject) => p.hasFullscreenField) {
        fullscreen := host.centralSurfaces.value.isFullscreen;
        statusBarShowing := host.centralSurfaces.value.transientShown;
      } else if ExistField(host.defaultDisplay, (p: ProbedObject) => p.hasFullscreenField) {
        fullscreen := host.defaultDisplay.value.isFullscreen;
        statusBarShowing := host.defaultDisplay.value.transientShown;
      }
    }

    /** `updateLyricState(showLyric, delay)`: in fullscreen (portrait or landscape) the
        lyric shows only while the status bar does; otherwise whenever asked and playing. */
    method UpdateLyricState(showLyric: bool, delay: int, host: Host)
      requires Valid()
      modifies this`statusBarShowing, this`isHiding, this`containers, this`theoreticalWidth, this`titleOverlay,
               xiaomi`bigTimeVisible
      ensures Valid()
      ensures View() == AfterUpdate(old(View()), Ctx(), showLyric, delay, host)
    {
      ghost var v0 := View();
      ghost var c0 := Ctx();
      var fullscreen := IsInFullScreenMode(host);
      assert View() == v0.(statusBarShowing := StatusBarAfter(host, v0.statusBarShowing));
      assert Ctx() == c0;
      var show: bool;
      if fullscreen && (host.orientation == Landscape || host.orientation == Portrait) {
        show := statusBarShowing && showLyric && isMusicPlaying;
      } else {
        show := showLyric && isMusicPlaying;
      }
      if show {
        ShowLyric(lastLyric, delay, host);
      } else {
        HideLyric();
      }
    }

    // ----- width refits and configuration -----------------------------------

    /** One container's refit while `lyric` is current: new width, and the dynamic speed
        or the configured one. */
    method RefitContainer(c: LyricContainer, lyric: string, host: Host) returns (r: LyricContainer)
      modifies this`theoreticalWidth
      ensures r == Refit(c, lyric, config, host, superIslandWidth)
      ensures theoreticalWidth == Measure(host, c, lyric)
    {
      var lyricWidth := GetLyricWidth(c, lyric, host);
      var i := theoreticalWidth - lyricWidth;
      var speed: real;
      if i > 0 && lyricWidth > 0 {
        if config.dynamicLyricSpeed {
          speed := DynamicModeSpeed(i, lyricWidth);
        } else {
          speed := config.lyricSpeed as real;
        }
      } else {
        speed := config.lyricSpeed as real;
      }
      r := c.(width := Some(lyricWidth), speed := Some(speed));
    }

    /** The `superIslandWidth` property: a changed value posts a refit of every container
        (`RefitContainers`), which here runs at once. */
    method SetSuperIslandWidth(newValue: int, host: Host)
      requires Valid()
      modifies this`superIslandWidth, this`containers, this`theoreticalWidth
      ensures Valid()
      ensures superIslandWidth == newValue
      ensures old(superIslandWidth) == newValue || lastLyric == "" ==>
        containers == old(containers) && theoreticalWidth == old(theoreticalWidth)
      ensures old(superIslandWidth) != newValue && lastLyric != "" ==>
        && containers == RefitAll(old(containers), lastLyric, config, host, newValue)
        && theoreticalWidth == if |containers| > 0 then Measure(host, old(containers)[|containers| - 1], lastLyric)
                               else old(theoreticalWidth)
    {
      var oldValue := superIslandWidth;
      superIslandWidth := newValue;
      if oldValue == newValue {
        return;
      }
      RefitContainers(host);
    }

    /** The block the `superIslandWidth` observer posts: while a lyric is current, every
        container gets the width and speed of `Refit`. */
    method RefitContainers(host: Host)
      requires Valid()
      modifies this`containers, this`theoreticalWidth
      ensures Valid()
      ensures lastLyric == "" ==> containers == old(containers) && theoreticalWidth == old(theoreticalWidth)
      ensures lastLyric != "" ==>
        && containers == RefitAll(old(containers), lastLyric, config, host, superIslandWidth)
        && theoreticalWidth == if |containers| > 0 then Measure(host, old(containers)[|containers| - 1], lastLyric)
                               else old(theoreticalWidth)
    {
      var j := 0;
      while j < |containers|
        modifies this`containers, this`theoreticalWidth
        invariant 0 <= j <= |containers| == |old(containers)|
        invariant forall k :: 0 <= k < j ==>
          containers[k] == if lastLyric != "" then Refit(old(containers)[k], lastLyric, config, host, superIslandWidth)
                           else old(containers)[k]
        invariant forall k :: j <= k < |containers| ==> containers[k] == old(containers)[k]
        invariant theoreticalWidth == if lastLyric != "" && j > 0 then Measure(host, old(containers)[j - 1], lastLyric)
                                      else old(theoreticalWidth)
      {
        var lyric := lastLyric;
        if lyric != "" {
          var c := RefitContainer(containers[j], lyric, host);
          containers := containers[j := c];
        }
        j := j + 1;
      }
      UpdatesKeepTargets(old(containers), lastLyric, 0, config, host, superIslandWidth);
    }

    /** One container's part of `updateConfig()`. */
    method ConfigureContainer(c: LyricContainer, host: Host) returns (r: LyricContainer)
      modifies this`theoreticalWidth
      ensures r == Configured(c, lastLyric, config, host, superIslandWidth)
      ensures lastLyric == "" ==> theoreticalWidth == old(theoreticalWidth)
      ensures lastLyric != "" ==> theoreticalWidth == Measure(host, c, lastLyric)
    {
      r := c;
      if !config.dynamicLyricSpeed {
        r := r.(speed := Some(config.lyricSpeed as real));
      }
      var lyric := lastLyric;
      if lyric != "" {
        r := RefitContainer(r, lyric, host);
      }
      r := r.(iconVisible := config.iconSwitch);
    }

    /** `updateConfig()` with the reloaded preferences `prefs`: the island width is taken
        again from the Xiaomi hooks, every container is reconfigured, and then the refit the
        island observer posted on a changed width runs. */
    method UpdateConfig(prefs: Config, host: Host)
      requires Valid()
      modifies this`config, this`superIslandWidth, this`containers, this`theoreticalWidth
      ensures Valid()
      ensures config == prefs
      ensures superIslandWidth == ReservedIslandWidth(xiaomi.lastIslandWidth, prefs.islandOffset)
      ensures containers == ConfiguredAll(old(containers), lastLyric, prefs, host, superIslandWidth)
      ensures theoreticalWidth == if lastLyric != "" && |containers| > 0
                                  then Measure(host, old(containers)[|containers| - 1], lastLyric)
                                  else old(theoreticalWidth)
    {
      config := prefs;
      var base := xiaomi.lastIslandWidth;
      var oldValue := superIslandWidth;
      superIslandWidth := if base > 0 then base + config.islandOffset else 0;
      ConfigureContainers(host);
      ghost var configured := containers;
      ghost var measured := theoreticalWidth;
      if oldValue != superIslandWidth {
        RefitContainers(host);
        if lastLyric != "" {
          RefitAllAfterConfiguredAllIsNoOp(old(containers), lastLyric, config, host, superIslandWidth);
          if |containers| > 0 {
            assert configured[|configured| - 1].clock == old(containers)[|configured| - 1].clock;
          }
        }
      }
    }

    /** The loop of `updateConfig()` over the containers. */
    method ConfigureContainers(host: Host)
      requires Valid()
      modifies this`containers, this`theoreticalWidth
      ensures Valid()
      ensures containers == ConfiguredAll(old(containers), lastLyric, config, host, superIslandWidth)
      ensures lastLyric == "" || |containers| == 0 ==> theoreticalWidth == old(theoreticalWidth)
      ensures lastLyric != "" && |containers| > 0 ==>
        theoreticalWidth == Measure(host, old(containers)[|containers| - 1], lastLyric)
    {
      UpdatesKeepTargets(containers, lastLyric, 0, config, host, superIslandWidth);
      var j := 0;
      while j < |containers|
        modifies this`containers, this`theoreticalWidth
        invariant 0 <= j <= |containers| == |old(containers)|
        invariant forall k :: 0 <= k < j ==>
          containers[k] == Configured(old(containers)[k], lastLyric, config, host, superIslandWidth)
        invariant forall k :: j <= k < |containers| ==> containers[k] == old(containers)[k]
        invariant lastLyric == "" || j == 0 ==> theoreticalWidth == old(theoreticalWidth)
        invariant lastLyric != "" && j > 0 ==> theoreticalWidth == Measure(host, old(containers)[j - 1], lastLyric)
      {
        var c := ConfigureContainer(containers[j], host);
        containers := containers[j := c];
        j := j + 1;
      }
    }

    /** The "updateConfig" broadcast: only type "normal" acts, and only once a container
        exists. */
    method OnUpdateConfigBroadcast(kind: string, prefs: Config, host: Host)
      requires Valid()
      modifies this`config, this`superIslandWidth, this`containers, this`theoreticalWidth
      ensures Valid()
      ensures kind != "normal" || old(containers) == [] ==> unchanged(this)
      ensures kind == "normal" && old(containers) != [] ==>
        && config == prefs
        && superIslandWidth == ReservedIslandWidth(xiaomi.lastIslandWidth, prefs.islandOffset)
        && containers == ConfiguredAll(old(containers), lastLyric, prefs, host, superIslandWidth)
        && theoreticalWidth == if lastLyric != "" then Measure(host, old(containers)[|containers| - 1], lastLyric)
                               else old(theoreticalWidth)
    {
      if kind == "normal" {
        if |containers| == 0 {
          return;
        }
        UpdateConfig(prefs, host);
      }
    }

    /** The Xiaomi `getIslandWidth` hook, as seen by this controller. */
    method OnIslandWidth(islandWidth: int, host: Host) returns (result: int)
      requires Valid()
      modifies xiaomi`lastIslandWidth, this`superIslandWidth, this`containers, this`theoreticalWidth
      ensures Valid()
      ensures xiaomi.lastIslandWidth == islandWidth
      ensures result == superIslandWidth == ReservedIslandWidth(islandWidth, config.islandOffset)
      ensures old(superIslandWidth) == superIslandWidth || lastLyric == "" ==> containers == old(containers)
      ensures old(superIslandWidth) != superIslandWidth && lastLyric != "" ==>
        containers == RefitAll(old(containers), lastLyric, config, host, superIslandWidth)
    {
      result := xiaomi.OnGetIslandWidth(islandWidth, config.islandOffset);
      SetSuperIslandWidth(result, host);
    }

    /** The Xiaomi `onExpansionChanged` hook, reading this controller's flags. */
    method OnExpansionChanged(controller: ExpandController?, f: real)
      modifies xiaomi`notificationBigTimeRef, xiaomi`bigTimeVisible, controller
      ensures !(isMusicPlaying && !isHiding && config.hideTime) ==>
        xiaomi.notificationBigTimeRef == old(xiaomi.notificationBigTimeRef) &&
        xiaomi.bigTimeVisible == old(xiaomi.bigTimeVisible) &&
        (controller != null ==> unchanged(controller))
      ensures isMusicPlaying && !isHiding && config.hideTime ==>
        && (controller != null ==>
              controller.bigTimeTranslationY == 0 && controller.notificationTranslationX == 0 &&
              controller.notificationBigTime == old(controller.notificationBigTime))
        && xiaomi.notificationBigTimeRef == (if controller == null then None else controller.notificationBigTime)
        && (xiaomi.notificationBigTimeRef.Some? ==>
              xiaomi.bigTimeVisible == old(xiaomi.bigTimeVisible)[xiaomi.notificationBigTimeRef.value := BigTimeVisibleAt(f)])
        && (xiaomi.notificationBigTimeRef.None? ==> xiaomi.bigTimeVisible == old(xiaomi.bigTimeVisible))
    {
      xiaomi.OnExpansionChanged(controller, f, isMusicPlaying, isHiding, config.hideTime);
    }

    // ----- lyric service events -----------------------------------------------

    /** `changeIcon(base64Icon)`: only with the icon switch on and music playing. */
    method ChangeIcon(base64Icon: string)
      modifies this`lastBase64Icon
      ensures !iconSwitch || !isMusicPlaying ==> lastBase64Icon == old(lastBase64Icon)
      ensures iconSwitch && isMusicPlaying ==>
        lastBase64Icon == IconChoice(config.changeAllIcons, config.defaultIcon, playingApp, base64Icon)
    {
      if !iconSwitch || !isMusicPlaying {
        return;
      }
      if playingApp == SaltMusic {
        lastBase64Icon := if config.changeAllIcons != "" then config.changeAllIcons else config.defaultIcon(playingApp);
      } else {
        lastBase64Icon := if config.changeAllIcons != "" then config.changeAllIcons
                          else if base64Icon != "" then base64Icon else config.defaultIcon(playingApp);
      }
    }

    /** Whether an `onSuperLyric` event posts a new title runnable. */
    predicate TitleChanges(d: SuperLyricData)
      reads this
    {
      config.titleSwitch && d.isExistMediaMetadata && d.title != "" && (lastArtist != d.artist || lastAlbum != d.album)
    }

    /** `onSuperLyric(data)`: marks music as playing, posts the title when the track changed,
        and for a non-empty lyric remembers it, updates the icon, shows it (or hides, as
        `updateLyricState` decides) and restarts the 10 s timeout, which also drops the
        pending title (see `PlayLyric`). */
    method OnSuperLyric(data: Option<SuperLyricData>, host: Host)
      requires Valid()
      modifies this`isMusicPlaying, this`playingApp, this`lastArtist, this`lastAlbum, this`pendingTitle,
               this`lastLyric, this`lastBase64Icon, this`timeoutMessages,
               this`statusBarShowing, this`isHiding, this`containers, this`theoreticalWidth, this`titleOverlay,
               xiaomi`bigTimeVisible
      ensures Valid()
      ensures data.None? || old(containers) == [] ==> unchanged(this) && unchanged(xiaomi)
      ensures data.Some? && old(containers) != [] ==>
        var d := data.value;
        && isMusicPlaying && playingApp == d.packageName
        && (old(TitleChanges(d)) ==> lastArtist == d.artist && lastAlbum == d.album)
        && (!old(TitleChanges(d)) ==> lastArtist == old(lastArtist) && lastAlbum == old(lastAlbum))
        && (d.lyric == "" ==>
              && (old(TitleChanges(d)) ==> pendingTitle == Some(d))
              && (!old(TitleChanges(d)) ==> pendingTitle == old(pendingTitle))
              && lastLyric == old(lastLyric) && lastBase64Icon == old(lastBase64Icon)
              && timeoutMessages == old(timeoutMessages) && View() == old(View()))
        && (d.lyric != "" ==>
              && lastLyric == d.lyric && timeoutMessages == 1 && pendingTitle == None
              && lastBase64Icon == (if iconSwitch then IconChoice(config.changeAllIcons, config.defaultIcon, d.packageName, d.base64Icon)
                                    else old(lastBase64Icon))
              && View() == AfterUpdate(old(View()), Ctx(), true, d.delay, host))
    {
      if data.None? {
        return;
      }
      if |containers| == 0 {
        return;
      }
      AcceptSuperLyric(data.value, host);
    }

    /** The effect of an accepted `onSuperLyric(d)`. */
    method AcceptSuperLyric(d: SuperLyricData, host: Host)
      requires Valid() && containers != []
      modifies this`isMusicPlaying, this`playingApp, this`lastArtist, this`lastAlbum, this`pendingTitle,
               this`lastLyric, this`lastBase64Icon, this`timeoutMessages,
               this`statusBarShowing, this`isHiding, this`containers, this`theoreticalWidth, this`titleOverlay,
               xiaomi`bigTimeVisible
      ensures Valid()
      ensures isMusicPlaying && playingApp == d.packageName
      ensures old(TitleChanges(d)) ==> lastArtist == d.artist && lastAlbum == d.album
      ensures !old(TitleChanges(d)) ==> lastArtist == old(lastArtist) && lastAlbum == old(lastAlbum)
      ensures d.lyric == "" ==>
        && (old(TitleChanges(d)) ==> pendingTitle == Some(d))
        && (!old(TitleChanges(d)) ==> pendingTitle == old(pendingTitle))
        && lastLyric == old(lastLyric) && lastBase64Icon == old(lastBase64Icon)
        && timeoutMessages == old(timeoutMessages) && View() == old(View())
      ensures d.lyric != "" ==>
        && lastLyric == d.lyric && timeoutMessages == 1 && pendingTitle == None
        && lastBase64Icon == (if iconSwitch then IconChoice(config.changeAllIcons, config.defaultIcon, d.packageName, d.base64Icon)
                              else old(lastBase64Icon))
        && View() == AfterUpdate(old(View()), Ctx(), true, d.delay, host)
    {
      ghost var before := View();
      isMusicPlaying := true;
      playingApp := d.packageName;
      PostTitle(d);
      if d.lyric == "" {
        return;
      }
      assert View() == before;
      PlayLyric(d.lyric, d.base64Icon, d.delay, host);
    }

    /** The title part of `onSuperLyric`: a new (artist, album) replaces the pending title
        runnable when titles are on and the event has metadata and a title. */
    method PostTitle(d: SuperLyricData)
      modifies this`lastArtist, this`lastAlbum, this`pendingTitle
      ensures old(TitleChanges(d)) ==> lastArtist == d.artist && lastAlbum == d.album && pendingTitle == Some(d)
      ensures !old(TitleChanges(d)) ==>
        lastArtist == old(lastArtist) && lastAlbum == old(lastAlbum) && pendingTitle == old(pendingTitle)
    {
      if config.titleSwitch && d.isExistMediaMetadata && d.title != "" {
        if lastArtist != d.artist || lastAlbum != d.album {
          lastArtist := d.artist;
          lastAlbum := d.album;
          pendingTitle := Some(d);
        }
      }
    }

    /** The tail of `onSuperLyric` for a non-empty lyric: remember it, change the icon,
        update the lyric state and (re)start the timeout. The title runnable went to the same
        handler through `postDelayed`, which queues it with `what` 0, the value of
        `timeoutRestore`; `hasMessages` and `removeMessages` match on the handler and `what`
        alone, so restarting the timeout also cancels a pending title. */
    method PlayLyric(lyric: string, base64Icon: string, delay: int, host: Host)
      requires Valid() && isMusicPlaying && lyric != ""
      modifies this`lastLyric, this`lastBase64Icon, this`timeoutMessages, this`pendingTitle,
               this`statusBarShowing, this`isHiding, this`containers, this`theoreticalWidth, this`titleOverlay,
               xiaomi`bigTimeVisible
      ensures Valid()
      ensures lastLyric == lyric && timeoutMessages == 1 && pendingTitle == None
      ensures lastBase64Icon == (if iconSwitch then IconChoice(config.changeAllIcons, config.defaultIcon, playingApp, base64Icon)
                                 else old(lastBase64Icon))
      ensures View() == AfterUpdate(old(View()), Ctx(), true, delay, host)
    {
      ShowNewLyric(lyric, base64Icon, delay, host);
      ghost var v1 := View();
      ghost var c1 := Ctx();
      ghost var icon := lastBase64Icon;
      RestartTimeout();
      assert View() == v1 && Ctx() == c1 && lastBase64Icon == icon;
    }

    /** The lyric part of `PlayLyric`: remember the lyric, change the icon and update the
        lyric state asking to show. */
    method ShowNewLyric(lyric: string, base64Icon: string, delay: int, host: Host)
      requires Valid() && isMusicPlaying && lyric != ""
      modifies this`lastLyric, this`lastBase64Icon,
               this`statusBarShowing, this`isHiding, this`containers, this`theoreticalWidth, this`titleOverlay,
               xiaomi`bigTimeVisible
      ensures Valid()
      ensures lastLyric == lyric
      ensures lastBase64Icon == (if iconSwitch then IconChoice(config.changeAllIcons, config.defaultIcon, playingApp, base64Icon)
                                 else old(lastBase64Icon))
      ensures View() == AfterUpdate(old(View()), Ctx(), true, delay, host)
    {
      ghost var v0 := View();
      lastLyric := lyric;
      ChangeIcon(base64Icon);
      ghost var icon := lastBase64Icon;
      assert View() == v0;
      UpdateLyricState(true, delay, host);
      assert lastBase64Icon == icon;
    }

    /** The timeout restart at the end of `onSuperLyric`: whatever `what`-0 messages are
        queued (the timeout and the title runnable) are removed, and one timeout is sent. */
    method RestartTimeout()
      requires Valid()
      modifies this`timeoutMessages, this`pendingTitle
      ensures Valid()
      ensures timeoutMessages == 1 && pendingTitle == None
    {
      if timeoutMessages > 0 || pendingTitle.Some? {
        timeoutMessages := 0;
        pendingTitle := None;
      }
      timeoutMessages := 1;
    }

    /** Whether `onStop(data)` returns at one of its guards. */
    predicate StopIgnored(data: Option<SuperLyricData>)
      reads this
    {
      || data.None? || |containers| == 0
      || data.value.playbackState == Some(STATE_BUFFERING)
      || (playingApp != "" && playingApp != data.value.packageName)
    }

    /** `onStop(data)`: a stop from the playing app (or from any app while none is
        recorded), other than buffering, ends playback, hides the lyric and cancels the
        pending title and timeout. */
    method OnStop(data: Option<SuperLyricData>, host: Host)
      requires Valid()
      modifies this`isMusicPlaying, this`lastLyric, this`playingApp, this`pendingTitle, this`timeoutMessages,
               this`statusBarShowing, this`isHiding, this`containers, this`theoreticalWidth, this`titleOverlay,
               xiaomi`bigTimeVisible
      ensures Valid()
      ensures old(StopIgnored(data)) ==> unchanged(this) && unchanged(xiaomi)
      ensures !old(StopIgnored(data)) ==>
        && !isMusicPlaying && lastLyric == "" && playingApp == ""
        && pendingTitle == None && timeoutMessages == 0
        && View() == AfterUpdate(old(View()), Ctx(), false, 0, host)
      ensures !old(StopIgnored(data)) ==> isHiding
    {
      if data.None? || |containers| == 0 {
        return;
      }
      if data.value.playbackState == Some(STATE_BUFFERING) {
        return;
      }
      if playingApp != "" && playingApp != data.value.packageName {
        return;
      }
      StopPlayback(host);
    }

    /** The effect of an accepted `onStop`. */
    method StopPlayback(host: Host)
      requires Valid() && containers != []
      modifies this`isMusicPlaying, this`lastLyric, this`playingApp, this`pendingTitle, this`timeoutMessages,
               this`statusBarShowing, this`isHiding, this`containers, this`theoreticalWidth, this`titleOverlay,
               xiaomi`bigTimeVisible
      ensures Valid()
      ensures !isMusicPlaying && lastLyric == "" && playingApp == "" && pendingTitle == None && timeoutMessages == 0
      ensures View() == AfterUpdate(old(View()), Ctx(), false, 0, host)
      ensures isHiding
    {
      isMusicPlaying := false;
      lastLyric := "";
      playingApp := "";
      ghost var before := View();
      UpdateLyricState(false, 0, host);
      StoppedUpdateHides(before, Ctx(), false, 0, host);
      ghost var v1 := View();
      ghost var c1 := Ctx();
      pendingTitle := None;
      timeoutMessages := 0;
      assert View() == v1 && Ctx() == c1;
    }

    /** The handler delivers the pending timeout message: with `timeoutRestore` on it
        forgets the lyric and the app and hides the lyric. It leaves `isMusicPlaying`
        as it is. */
    method HandleTimeout(host: Host)
      requires Valid()
      modifies this`timeoutMessages, this`lastLyric, this`playingApp,
               this`statusBarShowing, this`isHiding, this`containers, this`theoreticalWidth, this`titleOverlay,
               xiaomi`bigTimeVisible
      ensures Valid()
      ensures old(timeoutMessages) == 0 ==> unchanged(this) && unchanged(xiaomi)
      ensures old(timeoutMessages) > 0 && !config.timeoutRestore ==>
        timeoutMessages == 0 && lastLyric == old(lastLyric) && playingApp == old(playingApp) && View() == old(View())
      ensures old(timeoutMessages) > 0 && config.timeoutRestore ==>
        timeoutMessages == 0 && lastLyric == "" && playingApp == "" && View() == AfterUpdate(old(View()), Ctx(), false, 0, host)
    {
      if timeoutMessages == 0 {
        return;
      }
      timeoutMessages := timeoutMessages - 1;
      if config.timeoutRestore {
        lastLyric := "";
        playingApp := "";
        UpdateLyricState(false, 0, host);
      }
    }

    // ----- title ----------------------------------------------------------------

    /** The `title` property's effect: the stored title is `newTitle`; a changed title
        reaches the overlay unless it merely repeats the current lyric and that is not
        wanted; an empty title hides the overlay. */
    twostate predicate TitleEffect(newTitle: string)
      reads this
    {
      && title == newTitle
      && if old(title) != newTitle && (config.titleShowWithSameLyric || lastLyric != newTitle)
         then titleOverlay == (if newTitle == "" then TitleHidden else TitleShown(newTitle))
         else titleOverlay == old(titleOverlay)
    }

    /** The `title` setter. */
    method SetTitle(newTitle: string)
      modifies this`title, this`titleOverlay
      ensures TitleEffect(newTitle)
    {
      var oldTitle := title;
      title := newTitle;
      if oldTitle == newTitle {
        return;
      }
      if !config.titleShowWithSameLyric && lastLyric == newTitle {
        return;
      }
      if newTitle == "" {
        titleOverlay := TitleHidden;
      } else {
        titleOverlay := TitleShown(newTitle);
      }
    }

    /** `showTitleConsumer.accept(data)`: only for the app still playing. */
    method ShowTitleConsumer(d: SuperLyricData)
      modifies this`title, this`titleOverlay
      ensures !isMusicPlaying || playingApp != d.packageName ==> unchanged(this)
      ensures isMusicPlaying && playingApp == d.packageName ==> TitleEffect(d.title)
    {
      if !isMusicPlaying || playingApp != d.packageName {
        return;
      }
      SetTitle(d.title);
    }

    /** The posted title runnable fires, 800 ms after it was posted. */
    method FireTitleRunnable()
      requires Valid()
      modifies this`pendingTitle, this`title, this`titleOverlay
      ensures Valid()
      ensures pendingTitle == None
      ensures old(pendingTitle).None? ==> title == old(title) && titleOverlay == old(titleOverlay)
      ensures old(pendingTitle).Some? && !(isMusicPlaying && playingApp == old(pendingTitle).value.packageName) ==>
        title == old(title) && titleOverlay == old(titleOverlay)
      ensures old(pendingTitle).Some? && isMusicPlaying && playingApp == old(pendingTitle).value.packageName ==>
        TitleEffect(old(pendingTitle).value.title)
    {
      if pendingTitle.None? {
        return;
      }
      var d := pendingTitle.value;
      pendingTitle := None;
      ShowTitleConsumer(d);
    }

    // ----- host events --------------------------------------------------------------

    /** The screen-lock receiver (registered only with `hideLyricWhenLockScreen`): screen
        off hides the lyric; unlocking shows it again when a lyric is playing. */
    method OnScreenBroadcast(action: ScreenAction, host: Host)
      requires Valid()
      modifies this`isScreenLocked,
               this`statusBarShowing, this`isHiding, this`containers, this`theoreticalWidth, this`titleOverlay,
               xiaomi`bigTimeVisible
      ensures Valid()
      ensures !screenLockReceiverRegistered ==> unchanged(this) && unchanged(xiaomi)
      ensures screenLockReceiverRegistered ==> isScreenLocked == (action == ScreenOff)
      ensures screenLockReceiverRegistered && action == ScreenOff ==> View() == AfterUpdate(old(View()), Ctx(), false, 0, host)
      ensures screenLockReceiverRegistered && action == UserPresent && isMusicPlaying && lastLyric != "" ==>
        View() == AfterUpdate(old(View()), Ctx(), true, 0, host)
      ensures screenLockReceiverRegistered && action == UserPresent && !(isMusicPlaying && lastLyric != "") ==>
        View() == old(View())
    {
      if !screenLockReceiverRegistered {
        return;
      }
      isScreenLocked := action == ScreenOff;
      if isScreenLocked {
        UpdateLyricState(false, 0, host);
      } else if isMusicPlaying && lastLyric != "" {
        UpdateLyricState(true, 0, host);
      }
    }

    /** The `onConfigurationChanged` hook: a portrait or landscape configuration re-runs
        `updateLyricState()` once a container exists. */
    method OnConfigurationChanged(orientation: Orientation, host: Host)
      requires Valid()
      modifies this`statusBarShowing, this`isHiding, this`containers, this`theoreticalWidth, this`titleOverlay,
               xiaomi`bigTimeVisible
      ensures Valid()
      ensures !((orientation == Landscape || orientation == Portrait) && old(containers) != []) ==>
        unchanged(this) && unchanged(xiaomi)
      ensures (orientation == Landscape || orientation == Portrait) && old(containers) != [] ==>
        View() == AfterUpdate(old(View()), Ctx(), true, 0, host)
    {
      if orientation == Landscape || orientation == Portrait {
        if |containers| == 0 {
          return;
        }
        UpdateLyricState(true, 0, host);
      }
    }

    /** The first `setVisibility` hook (installed with the first container): it learns the
        `system_icons` view, then mirrors that view's visibility onto the lyric while music
        plays. `idName` is the view's resource entry name when it has one. */
    method OnStatusIconsVisibility(view: ViewId, idName: Option<string>, visible: bool, host: Host)
      requires Valid()
      modifies this`statusBatteryContainer,
               this`statusBarShowing, this`isHiding, this`containers, this`theoreticalWidth, this`titleOverlay,
               xiaomi`bigTimeVisible
      ensures Valid()
      ensures old(containers) == [] ==> unchanged(this) && unchanged(xiaomi)
      ensures old(containers) != [] && old(statusBatteryContainer).None? ==>
        && statusBatteryContainer == (if idName == Some("system_icons") then Some(view) else None)
        && View() == old(View())
      ensures old(containers) != [] && old(statusBatteryContainer).Some? ==>
        statusBatteryContainer == old(statusBatteryContainer)
      ensures old(containers) != [] && old(statusBatteryContainer) == Some(view) && isMusicPlaying ==>
        View() == AfterUpdate(old(View()), Ctx(), visible, 0, host)
      ensures old(containers) != [] && old(statusBatteryContainer).Some? &&
              (old(statusBatteryContainer) != Some(view) || !isMusicPlaying) ==>
        unchanged(this) && unchanged(xiaomi)
    {
      if |containers| == 0 {
        return;
      }
      if statusBatteryContainer.Some? {
        if statusBatteryContainer.value != view {
          return;
        }
        if !isMusicPlaying {
          return;
        }
        if visible {
          UpdateLyricState(true, 0, host);
        } else {
          UpdateLyricState(false, 0, host);
        }
      } else if idName == Some("system_icons") {
        statusBatteryContainer := Some(view);
      }
    }

    /** The visibility-limiting `setVisibility` hook: the visibility a view actually gets
        when `visible` is requested. While a lyric shows and the clock is configured hidden,
        a request to show a container's clock is turned into GONE; nothing else changes. */
    function LimitedVisibility(view: ViewId, visible: bool): (r: bool)
      reads this
      ensures r ==> visible
      ensures visible ==> (!r <==>
        limitHookInstalled && isMusicPlaying && !isHiding && containers != [] && config.hideTime &&
        exists k :: 0 <= k < |containers| && containers[k].clock == view)
    {
      if limitHookInstalled && isMusicPlaying && !isHiding && visible && |containers| > 0 && config.hideTime &&
         IsClockView(Some(view))
      then false
      else visible
    }

    // ----- touch ---------------------------------------------------------------------

    /** `ACTION_DOWN`: records the raw press point once a container exists. */
    method OnTouchDown(raw: Point)
      modifies this`point
      ensures containers == [] ==> point == old(point)
      ensures containers != [] ==> point == Some(raw)
    {
      if |containers| == 0 {
        return;
      }
      point := Some(raw);
    }

    /** Whether the point `(x, y)`, in the status bar's coordinates, is inside some
        container's layout. */
    method HitTest(x: int, y: int, host: Host) returns (hit: bool)
      ensures hit <==> exists k :: 0 <= k < |containers| && Inside(host.layoutBounds(containers[k].target), x, y)
    {
      hit := false;
      var j := 0;
      while j < |containers|
        invariant 0 <= j <= |containers|
        invariant hit <==> exists k :: 0 <= k < j && Inside(host.layoutBounds(containers[k].target), x, y)
      {
        var bounds := host.layoutBounds(containers[j].target);
        if bounds.left <= x <= bounds.right && bounds.top <= y <= bounds.bottom {
          hit := true;
        }
        j := j + 1;
      }
    }

    /** `autoHideStatusBarInFullScreenModeIfNeed()`. */
    method AutoHide(host: Host)
      modifies this`statusBarShowing, this`autoHideTouches
      ensures !host.autoHideController ==> statusBarShowing == old(statusBarShowing) && autoHideTouches == old(autoHideTouches)
      ensures host.autoHideController ==>
        statusBarShowing == StatusBarAfter(host, old(statusBarShowing)) &&
        autoHideTouches == old(autoHideTouches) + (if FullscreenNow(host) then 1 else 0)
    {
      if !host.autoHideController {
        return;
      }
      var fullscreen := IsInFullScreenMode(host);
      if !fullscreen {
        return;
      }
      autoHideTouches := autoHideTouches + 1;
    }

    /** `ACTION_UP` at raw point `raw` and view-local point `local`; `consumed` is whether
        the hook swallows the event. Without a recorded press nothing happens. */
    method OnTouchUp(raw: Point, local: Point, downTime: int, eventTime: int, host: Host) returns (consumed: bool)
      requires Valid()
      modifies this`keyEvents, this`autoHideTouches,
               this`statusBarShowing, this`isHiding, this`containers, this`theoreticalWidth, this`titleOverlay,
               xiaomi`bigTimeVisible
      ensures Valid()
      ensures old(containers) == [] || point.None? ==> !consumed && unchanged(this) && unchanged(xiaomi)
      ensures old(containers) != [] && point.Some? ==>
        var a := DecideTouchUp(config, isMusicPlaying, old(isHiding), point.value, raw, downTime, eventTime);
        var hit := exists k :: 0 <= k < |old(containers)| && Inside(host.layoutBounds(old(containers)[k].target), local.x, local.y);
        var acted := a == ShowAgain || (a == HideIfHit && hit);
        && consumed == (a.SendKey? || acted)
        && keyEvents == old(keyEvents) + (if a.SendKey? then [a.code] else [])
        && (a == ShowAgain ==> View() == AfterUpdate(old(View()), Ctx(), true, 0, host))
        && (a == HideIfHit && hit ==> View() == AfterUpdate(old(View()), Ctx(), false, 0, host))
        && (acted && host.autoHideController ==> autoHideTouches == old(autoHideTouches) + (if FullscreenNow(host) then 1 else 0))
        && (!acted || !host.autoHideController ==> autoHideTouches == old(autoHideTouches))
        && (!acted ==> View() == old(View()))
    {
      consumed := false;
      if |containers| == 0 || point.None? {
        return;
      }
      var action := DecideTouchUp(config, isMusicPlaying, isHiding, point.value, raw, downTime, eventTime);
      match action
      case NoAction =>
      case SendKey(code) =>
        keyEvents := keyEvents + [code];
        consumed := true;
      case ShowAgain =>
        consumed := true;
        UpdateThenAutoHide(true, host);
      case HideIfHit =>
        var hit := HitTest(local.x, local.y, host);
        if hit {
          consumed := true;
          UpdateThenAutoHide(false, host);
        }
    }

    /** The tap branch's `updateLyricState(...)` followed by
        `autoHideStatusBarInFullScreenModeIfNeed()`: the second probe of the host finds
        the same flags, so the state is the one the update left. */
    method UpdateThenAutoHide(showLyric: bool, host: Host)
      requires Valid()
      modifies this`autoHideTouches,
               this`statusBarShowing, this`isHiding, this`containers, this`theoreticalWidth, this`titleOverlay,
               xiaomi`bigTimeVisible
      ensures Valid()
      ensures View() == AfterUpdate(old(View()), Ctx(), showLyric, 0, host)
      ensures autoHideTouches == old(autoHideTouches) + (if host.autoHideController && FullscreenNow(host) then 1 else 0)
    {
      UpdateLyricState(showLyric, 0, host);
      AutoHide(host);
      ProbeStrategies(host, old(statusBarShowing));
    }
  }
}
