# StatusBarLyric — a Dafny model of the lyric controller

StatusBarLyric is an Xposed module. It hooks Android's SystemUI and puts the lyric of the
playing song into the status bar, next to (or in place of) the clock. This project models
the module's decision layer and proves properties of it.

- **`SystemUILyric`** (module `Lyric`, `system_ui_lyric.dfy`) is the controller.
  - It keeps a registry of lyric containers, one per status-bar clock; a container is added once per target.
  - It tracks the playback state driven by the lyric service's `onSuperLyric` and `onStop` events.
  - It runs the 10 s silence timeout and the 800 ms delayed title.
  - It handles the screen-lock receiver, orientation changes, the mirroring of the status-bar icons' visibility, and the touch gestures on the status bar.
  - It decides when to show or hide the lyric (`updateLyricState`, `showLyric`, `hideLyric`).
  - The controller is a class whose fields the methods update.
  - Each show/hide method is proved equal to a value-level function over a `ViewState` snapshot: `AfterShow`, `AfterHide` and `AfterUpdate`. The lemmas about the state machine are proved on those functions.
- **Width and speed** (module `Geometry`, `lyric_geometry.dfy`) hold the pure arithmetic:
  - `getLyricWidth` and `scaleWidth`;
  - the three speed rules: delay mode, dynamic mode and the static configured speed.
- **`LyricTextView`** (module `Scroller`, `lyric_text_view.dfy`) is the frame-driven scroller.
  - Each display frame moves the text toward `viewWidth - textLength`.
  - It snaps exactly onto that target and stops there.
- **`XiaomiHooks`** (module `Xiaomi`, `xiaomi_hooks.dfy`) covers:
  - the width reserved for the "super island" notification pill;
  - the visibility rule for the notification shade's big clock.
- **`Tools`** (`tools.dfy`) holds the helpers:
  - the null-guard combinators and `existField`;
  - `observableChange`, modelled as a class with a setter;
  - `uppercaseFirstChar`.

Modelling conventions:
- Kotlin nullable references are `Option`.
- Views are known only by identity (`ViewId`).
- Facts read from the host at the moment they are needed arrive as a `Host` value. These are the fullscreen flags, the orientation, the display size, the measured text width, the target width and the layout bounds.
- Blocks posted to the main thread run at the call site.
- The pending silence timeout is a message count (at most one).
- The pending title runnable is the `SuperLyricData` it captured.
- Floats are reals.

## Model

Paths are relative to the repository root. `SystemUILyric.kt` is
`app/src/main/kotlin/statusbar/lyric/hook/module/SystemUILyric.kt`.

| member | source | states |
|---|---|---|
| Tools.IsNotNull | app/src/main/kotlin/statusbar/lyric/tools/Tools.kt:143-149 | returns true exactly for a non-null receiver, and the callback runs once on it then, never otherwise |
| Tools.IsNull | app/src/main/kotlin/statusbar/lyric/tools/Tools.kt:151-157 | the mirror image: true and the callback runs exactly when the receiver is null |
| Tools.GuardsAreComplementary | app/src/main/kotlin/statusbar/lyric/tools/Tools.kt:143-157 | on any receiver exactly one of the two guards fires, with exactly one callback run between them |
| Tools.IfNotNull | app/src/main/kotlin/statusbar/lyric/tools/Tools.kt:159-164 | null receiver gives null without the callback; otherwise the callback's result |
| Tools.ExistField | app/src/main/kotlin/statusbar/lyric/tools/Tools.kt:174-177 | false for a null receiver; otherwise true iff the field is found |
| Tools.UppercaseFirstChar | app/src/main/kotlin/statusbar/lyric/tools/Tools.kt:58-63 | empty strings and strings not starting with a lower-case char are unchanged; otherwise only the first char is replaced by its title case |
| Tools.UppercaseFirstCharKeepsTail | app/src/main/kotlin/statusbar/lyric/tools/Tools.kt:58-63 | the rest of the string is kept, and so is the length when the title case is one char |
| Tools.UppercaseFirstCharAsciiIdempotent | app/src/main/kotlin/statusbar/lyric/tools/Tools.kt:58-63 | on ASCII, applying the rewrite twice is applying it once |
| Tools.Observable.constructor | app/src/main/kotlin/statusbar/lyric/tools/Tools.kt:85-87 | the delegate starts at the initial value with no change notified |
| Tools.Observable.Set | app/src/main/kotlin/statusbar/lyric/tools/Tools.kt:85-93 | the new value is stored either way; `onChange(old, new)` is called iff old != new; the recorded calls stay a chain of real changes ending at the current value |
| Xiaomi.ReservedIslandWidth | app/src/main/kotlin/statusbar/lyric/hook/module/xiaomi/XiaomiHooks.kt:79 | a positive island width becomes width + offset, anything else 0 |
| Xiaomi.BigTimeVisibilityMonotone | app/src/main/kotlin/statusbar/lyric/hook/module/xiaomi/XiaomiHooks.kt:65-67 | the big clock is GONE exactly below fraction 0.8, and once visible stays visible at larger fractions |
| Xiaomi.XiaomiHooks.constructor | app/src/main/kotlin/statusbar/lyric/hook/module/xiaomi/XiaomiHooks.kt:39-40 | no big-clock reference and island width 0 at start |
| Xiaomi.XiaomiHooks.SetNotificationBigTime | app/src/main/kotlin/statusbar/lyric/hook/module/xiaomi/XiaomiHooks.kt:42-45 | the reference becomes the given view; null clears it, so the getter returns null |
| Xiaomi.XiaomiHooks.SetBigTimeVisibility | app/src/main/kotlin/statusbar/lyric/hook/module/SystemUILyric.kt:670 | only a referenced big clock gets the new visibility; nothing else changes |
| Xiaomi.XiaomiHooks.OnGetIslandWidth | app/src/main/kotlin/statusbar/lyric/hook/module/xiaomi/XiaomiHooks.kt:76-80 | `lastIslandWidth` is the raw width, not the offset one; the returned island width follows the reserved-width rule |
| Xiaomi.XiaomiHooks.OnExpansionChanged | app/src/main/kotlin/statusbar/lyric/hook/module/xiaomi/XiaomiHooks.kt:52-69 | acts only while playing, not hiding and with hideTime; then zeroes both translations, takes the controller's big clock as the reference and makes it visible iff f >= 0.8; otherwise nothing changes |
| Geometry.CoerceIn | app/src/main/kotlin/statusbar/lyric/hook/module/SystemUILyric.kt:641 | result within the bounds, equal to the input when inside them, the nearer bound otherwise |
| Geometry.TruncateToInt | app/src/main/kotlin/statusbar/lyric/hook/module/SystemUILyric.kt:850 | Kotlin's `toInt()` rounds toward zero: the result lies between 0 and x and within 1 of x |
| Geometry.ScaleWidth | app/src/main/kotlin/statusbar/lyric/hook/module/SystemUILyric.kt:848-851 | for a percentage in [0, 100] the width lies in [0, the display side], the side being the height in landscape |
| Geometry.LyricWidth | app/src/main/kotlin/statusbar/lyric/hook/module/SystemUILyric.kt:833-845 | auto width is min(text, max(0, target - margins - island)) and lies in [0, text]; a fixed width is `scaleWidth()`; otherwise min(text, `scaleWidth()`) |
| Geometry.OverflowIsNonNegative | app/src/main/kotlin/statusbar/lyric/hook/module/SystemUILyric.kt:833-845 | unless the width is fixed, the overflow text - width is >= 0 |
| Geometry.FixedWidthIgnoresText | app/src/main/kotlin/statusbar/lyric/hook/module/SystemUILyric.kt:839-841 | with a fixed width any two texts get the same width |
| Geometry.WiderIslandNeverWidens | app/src/main/kotlin/statusbar/lyric/hook/module/SystemUILyric.kt:835-838 | a wider island never gives the lyric more room |
| Geometry.DelayModeSpeed | app/src/main/kotlin/statusbar/lyric/hook/module/SystemUILyric.kt:637-643 | the delay-mode speed lies in (0.3, 5.0] |
| Geometry.DelayModeSlowsWithLongerDelay | app/src/main/kotlin/statusbar/lyric/hook/module/SystemUILyric.kt:637-643 | a longer delay never gives a faster scroll |
| Geometry.WrapInt32 | app/src/main/kotlin/statusbar/lyric/hook/module/SystemUILyric.kt:647 | Kotlin `Int` arithmetic: the result lies in the 32-bit range, equals the input inside it and differs from it by a multiple of 2^32 |
| Geometry.DynamicModeSpeed | app/src/main/kotlin/statusbar/lyric/hook/module/SystemUILyric.kt:645-649 | lies in [0.3, 5.0]; because the proportion is an integer division it is 0.7 while the overflow is narrower than the view, and 5.0 from then on while `10 * proportion` fits in an `Int` |
| Geometry.DynamicModeWrapsToMinimum | app/src/main/kotlin/statusbar/lyric/hook/module/SystemUILyric.kt:645-649 | a proportion from 214748365 to 429496729 wraps `10 * proportion` to a negative `Int`, so the speed is the minimum 0.3 |
| Geometry.ShowLyricSpeed | app/src/main/kotlin/statusbar/lyric/hook/module/SystemUILyric.kt:634-653 | no overflow or zero width gives the configured speed; otherwise the delay rule when delay > 0, else the dynamic rule; no speed at all (left untouched) iff overflow, no delay and static mode |
| Geometry.RefitSpeed | app/src/main/kotlin/statusbar/lyric/hook/module/SystemUILyric.kt:230-242 | the dynamic rule with overflow in dynamic mode, the configured speed in every other case |
| Geometry.ChosenSpeedIsClamped | app/src/main/kotlin/statusbar/lyric/hook/module/SystemUILyric.kt:634-653 | every speed set for overflowing text, by show or refit in delay or dynamic mode, lies in [0.3, 5.0] |
| Geometry.ShowAndRefitAgree | app/src/main/kotlin/statusbar/lyric/hook/module/SystemUILyric.kt:634-653 | without a delay, wherever `showLyric` sets a speed it equals the one a later refit sets |
| Geometry.FittingTextUsesConfiguredSpeed | app/src/main/kotlin/statusbar/lyric/hook/module/SystemUILyric.kt:634-653 | text 150 px in a 200 px target with a 2 s delay fits, so the configured speed is used |
| Geometry.OverflowingTextScenarios | app/src/main/kotlin/statusbar/lyric/hook/module/SystemUILyric.kt:634-649 | text 200 px in 150 px: delay rule 0.3 + (50/150)·2.5; dynamic rule 0.7 |
| Scroller.StartDelay | app/src/main/kotlin/statusbar/lyric/view/LyricTextView.kt:158-161 | animationDuration + 200 in dynamic-speed mode, + 500 otherwise |
| Scroller.NextX | app/src/main/kotlin/statusbar/lyric/view/LyricTextView.kt:110-140 | for step >= 0 the new x lies between the old x and the target; reaching or passing the target snaps onto it; on the target it stays; otherwise the distance shrinks by exactly the step |
| Scroller.FrameStep | app/src/main/kotlin/statusbar/lyric/view/LyricTextView.kt:146-147 | a non-negative speed over non-decreasing time gives a non-negative step; no elapsed time gives step 0 |
| Scroller.IterateStaysBetween | app/src/main/kotlin/statusbar/lyric/view/LyricTextView.kt:110-140 | any number of non-negative steps keeps the text between its start and the target |
| Scroller.IterateReachesTarget | app/src/main/kotlin/statusbar/lyric/view/LyricTextView.kt:110-140 | n positive steps whose total covers the distance end exactly on the target |
| Scroller.LyricTextView.constructor | app/src/main/kotlin/statusbar/lyric/view/LyricTextView.kt:34-42 | not scrolling, empty text, speed 4, x 0, no frame time |
| Scroller.LyricTextView.StopScroll | app/src/main/kotlin/statusbar/lyric/view/LyricTextView.kt:164-169 | not scrolling, pending start and frame callback removed, frame time 0 |
| Scroller.LyricTextView.StartScroll | app/src/main/kotlin/statusbar/lyric/view/LyricTextView.kt:155-162 | scrolling, frame time 0, start posted with `StartDelay` |
| Scroller.LyricTextView.RunStartScrollRunnable | app/src/main/kotlin/statusbar/lyric/view/LyricTextView.kt:42 | a pending start registers the frame callback and is consumed |
| Scroller.LyricTextView.ResumeScroll | app/src/main/kotlin/statusbar/lyric/view/LyricTextView.kt:179-183 | scrolling, frame time 0, frame callback posted, x untouched |
| Scroller.LyricTextView.SetText | app/src/main/kotlin/statusbar/lyric/view/LyricTextView.kt:55-63 | new text at x 0, scroll restarted with frame time 0 and a posted start; width and speed unchanged |
| Scroller.LyricTextView.RecomputeTextMetrics | app/src/main/kotlin/statusbar/lyric/view/LyricTextView.kt:185-193 | the text length is re-measured |
| Scroller.LyricTextView.SetScrollSpeed | app/src/main/kotlin/statusbar/lyric/view/LyricTextView.kt:175-177 | only the speed changes |
| Scroller.LyricTextView.OnSizeChanged | app/src/main/kotlin/statusbar/lyric/view/LyricTextView.kt:99-104 | takes the new width and resumes scrolling |
| Scroller.LyricTextView.OnDetachedFromWindow | app/src/main/kotlin/statusbar/lyric/view/LyricTextView.kt:50-53 | stops the scroll |
| Scroller.LyricTextView.UpdateScrollPosition | app/src/main/kotlin/statusbar/lyric/view/LyricTextView.kt:110-140 | x becomes `NextX(x, viewWidth - textLength, step)`; landing on the target stops the scroll, otherwise the scroll state is kept |
| Scroller.LyricTextView.DoFrame | app/src/main/kotlin/statusbar/lyric/view/LyricTextView.kt:142-153 | nothing moves when not scrolling; the first frame only records the time; later frames advance by `FrameStep` and stop on the target, which also clears the pending start; otherwise the pending start is kept; a scrolling view re-posts itself |
| Lyric.HasTarget | app/src/main/kotlin/statusbar/lyric/hook/module/SystemUILyric.kt:201 | true iff some container has the target |
| Lyric.HasClock | app/src/main/kotlin/statusbar/lyric/hook/module/SystemUILyric.kt:170 | true iff some container has the clock |
| Lyric.Register | app/src/main/kotlin/statusbar/lyric/hook/module/SystemUILyric.kt:200-208 | the registry only grows (old one is a prefix, at most one more); afterwards the target is present; a known target changes nothing; distinct targets stay distinct |
| Lyric.RegisterIsIdempotent | app/src/main/kotlin/statusbar/lyric/hook/module/SystemUILyric.kt:200-203 | adding the same target twice is adding it once, whatever the clocks |
| Lyric.ProbeStrategies | app/src/main/kotlin/statusbar/lyric/hook/module/SystemUILyric.kt:503-518 | without either host object there is no fullscreen and the status-bar flag is kept; the older host's fields win; probing twice is probing once |
| Lyric.ShowDecision | app/src/main/kotlin/statusbar/lyric/hook/module/SystemUILyric.kt:477-501 | shows iff asked, music is playing and, in oriented fullscreen, the status bar is showing |
| Lyric.Classify | app/src/main/kotlin/statusbar/lyric/hook/module/SystemUILyric.kt:356-357 | a move iff more than 50 px on an axis; a long click iff not a move and strictly more than 500 ms |
| Lyric.ClassifyBoundaries | app/src/main/kotlin/statusbar/lyric/hook/module/SystemUILyric.kt:356-357 | 50 px is not a move, 51 px is; 500 ms is a tap, 501 ms a long click; a long-held move is a move |
| Lyric.DecideTouchUp | app/src/main/kotlin/statusbar/lyric/hook/module/SystemUILyric.kt:355-431 | a song key is sent iff a move with slide enabled, playing, not hiding, |dy| <= yRadius and |dx| > xRadius (87 when start x > end x, else 88); play/pause iff long click, enabled, not hiding; a tap re-shows while hiding and hides-if-hit otherwise, only when enabled and playing |
| Lyric.MoveTakesPriority | app/src/main/kotlin/statusbar/lyric/hook/module/SystemUILyric.kt:356-359 | a move never sends play/pause, however long the press |
| Lyric.IconChoice | app/src/main/kotlin/statusbar/lyric/hook/module/SystemUILyric.kt:678-683 | a configured override wins; Salt Music always gets the preset; other apps get their own icon when they send one, the preset otherwise |
| Lyric.Shown | app/src/main/kotlin/statusbar/lyric/hook/module/SystemUILyric.kt:620-668 | a container after `showLyric`: new text and width, layout visible, clock hidden iff hideTime, speed from `ShowLyricSpeed` or kept |
| Lyric.Hidden | app/src/main/kotlin/statusbar/lyric/hook/module/SystemUILyric.kt:693-697 | clock visible, text cleared, layout hidden; width and speed kept |
| Lyric.Refit | app/src/main/kotlin/statusbar/lyric/hook/module/SystemUILyric.kt:224-245 | only width and speed change, to `LyricWidth` and `RefitSpeed` |
| Lyric.Configured | app/src/main/kotlin/statusbar/lyric/hook/module/SystemUILyric.kt:716-816 | icon visibility follows the icon switch; static mode resets the speed; with a current lyric width and speed are refitted |
| Lyric.AfterShow | app/src/main/kotlin/statusbar/lyric/hook/module/SystemUILyric.kt:615-672 | no-op unless containers exist, music plays, the lyric is non-empty and the screen unlocked; then not hiding, every container shows the lyric (clock hidden with hideTime) and the big clock is hidden |
| Lyric.AfterHide | app/src/main/kotlin/statusbar/lyric/hook/module/SystemUILyric.kt:687-704 | no-op with no container or when already hiding; otherwise hiding, every container hides its lyric and shows its clock, the title goes when titles are on, the big clock shows |
| Lyric.AfterUpdate | app/src/main/kotlin/statusbar/lyric/hook/module/SystemUILyric.kt:477-518 | the probe refreshes the status-bar flag; then it hides when not asked, not playing, or in oriented fullscreen with the bar hidden, and shows the last lyric otherwise |
| Lyric.UpdatesKeepTargets | app/src/main/kotlin/statusbar/lyric/hook/module/SystemUILyric.kt:619-697 | showing, hiding, refitting and configuring keep targets distinct |
| Lyric.ShownIsIdempotent | app/src/main/kotlin/statusbar/lyric/hook/module/SystemUILyric.kt:620-668 | showing a container the same lyric again changes none of the recorded container fields (the restart of the scroll that `setText` causes is not recorded) |
| Lyric.ShowIsIdempotent | app/src/main/kotlin/statusbar/lyric/hook/module/SystemUILyric.kt:615-672 | `showLyric` with the lyric already shown changes none of the recorded controller or container fields |
| Lyric.HideIsIdempotent | app/src/main/kotlin/statusbar/lyric/hook/module/SystemUILyric.kt:687-689 | `hideLyric` twice is `hideLyric` once |
| Lyric.StoppedUpdateHides | app/src/main/kotlin/statusbar/lyric/hook/module/SystemUILyric.kt:477-497 | an update not asked to show, or while no music plays, leaves every layout hidden and empty and the controller hiding |
| Lyric.FullscreenKeepsLyricHidden | app/src/main/kotlin/statusbar/lyric/hook/module/SystemUILyric.kt:478-487 | in oriented fullscreen with the status bar hidden, even a request to show hides |
| Lyric.RefitAfterConfiguredIsNoOp | app/src/main/kotlin/statusbar/lyric/hook/module/SystemUILyric.kt:223-247 | the refit the island observer posts inside `updateConfig`, which runs after the configuration loop, leaves a configured container as it is |
| Lyric.RefitAllAfterConfiguredAllIsNoOp | app/src/main/kotlin/statusbar/lyric/hook/module/SystemUILyric.kt:706-817 | the same for a whole registry: configuring and then refitting is configuring |
| Lyric.ConfiguredAbsorbsRefit | app/src/main/kotlin/statusbar/lyric/hook/module/SystemUILyric.kt:223-247 | refitting before or after configuring gives the same container, so the order of the two posted blocks does not matter |
| Lyric.SystemUILyric.constructor | app/src/main/kotlin/statusbar/lyric/hook/module/SystemUILyric.kt:135-147 | empty registry, not playing, not hiding, unlocked, status bar showing, no pending title or timeout; the icon switch is taken from the configuration |
| Lyric.SystemUILyric.IsClockView | app/src/main/kotlin/statusbar/lyric/hook/module/SystemUILyric.kt:168-171 | false for null or an empty registry; otherwise true iff some container's clock is the view |
| Lyric.SystemUILyric.AddContainerIfAbsent | app/src/main/kotlin/statusbar/lyric/hook/module/SystemUILyric.kt:200-208 | the registry becomes `Register(old, clock, target)` and targets stay distinct |
| Lyric.SystemUILyric.OnClockCreated | app/src/main/kotlin/statusbar/lyric/hook/module/SystemUILyric.kt:262-284 | only clocks named clock/pad_clock in a LinearLayout register; the first one also installs the hooks and applies the configuration |
| Lyric.SystemUILyric.LyricHookInit | app/src/main/kotlin/statusbar/lyric/hook/module/SystemUILyric.kt:287-473 | the limiting hook is installed per the configuration read before the reload; then `updateConfig` |
| Lyric.SystemUILyric.GetLyricWidth | app/src/main/kotlin/statusbar/lyric/hook/module/SystemUILyric.kt:822-846 | records the measured width as theoreticalWidth and returns `LyricWidth` |
| Lyric.SystemUILyric.ShowOnContainer | app/src/main/kotlin/statusbar/lyric/hook/module/SystemUILyric.kt:620-668 | the container becomes `Shown` |
| Lyric.SystemUILyric.ShowOnContainers | app/src/main/kotlin/statusbar/lyric/hook/module/SystemUILyric.kt:619-669 | every container becomes `Shown`; theoreticalWidth is the last container's measurement |
| Lyric.SystemUILyric.ShowLyric | app/src/main/kotlin/statusbar/lyric/hook/module/SystemUILyric.kt:615-672 | the state becomes `AfterShow` of the old state |
| Lyric.SystemUILyric.HideLyric | app/src/main/kotlin/statusbar/lyric/hook/module/SystemUILyric.kt:687-704 | the state becomes `AfterHide` of the old state |
| Lyric.SystemUILyric.IsInFullScreenMode | app/src/main/kotlin/statusbar/lyric/hook/module/SystemUILyric.kt:503-518 | returns the probed fullscreen flag and takes the status-bar flag from the probed object |
| Lyric.SystemUILyric.UpdateLyricState | app/src/main/kotlin/statusbar/lyric/hook/module/SystemUILyric.kt:477-497 | the state becomes `AfterUpdate` of the old state |
| Lyric.SystemUILyric.RefitContainer | app/src/main/kotlin/statusbar/lyric/hook/module/SystemUILyric.kt:224-245 | the container becomes `Refit` |
| Lyric.SystemUILyric.SetSuperIslandWidth | app/src/main/kotlin/statusbar/lyric/hook/module/SystemUILyric.kt:220-223 | stores the value; a changed value runs the observer's refit of every container while a lyric is current; otherwise nothing else changes |
| Lyric.SystemUILyric.RefitContainers | app/src/main/kotlin/statusbar/lyric/hook/module/SystemUILyric.kt:223-247 | while a lyric is current every container becomes `Refit` and `theoreticalWidth` is the last one's text width; with no lyric nothing changes |
| Lyric.SystemUILyric.ConfigureContainer | app/src/main/kotlin/statusbar/lyric/hook/module/SystemUILyric.kt:716-816 | the container becomes `Configured` |
| Lyric.SystemUILyric.UpdateConfig | app/src/main/kotlin/statusbar/lyric/hook/module/SystemUILyric.kt:706-819 | takes the reloaded configuration, recomputes the island width from the Xiaomi hooks, configures every container, then runs the posted refit on a changed width; the registry ends as `ConfiguredAll` |
| Lyric.SystemUILyric.ConfigureContainers | app/src/main/kotlin/statusbar/lyric/hook/module/SystemUILyric.kt:716-817 | every container becomes `Configured` |
| Lyric.SystemUILyric.OnUpdateConfigBroadcast | app/src/main/kotlin/statusbar/lyric/hook/module/SystemUILyric.kt:853-865 | only type "normal" with a container runs `updateConfig`: the new configuration, the reserved island width from the Xiaomi hooks, every container `Configured` and the last text width; anything else changes nothing |
| Lyric.SystemUILyric.OnIslandWidth | app/src/main/kotlin/statusbar/lyric/hook/module/xiaomi/XiaomiHooks.kt:74-82 | the raw width is remembered, the island width follows the reserved-width rule, and containers are refitted only when it changed and a lyric is current |
| Lyric.SystemUILyric.OnExpansionChanged | app/src/main/kotlin/statusbar/lyric/hook/module/xiaomi/XiaomiHooks.kt:52-69 | with the controller playing, not hiding and hideTime on: the expand controller's translations are zeroed, its big clock becomes the reference and gets visibility f >= 0.8, and with no big clock nothing else changes; otherwise nothing changes |
| Lyric.SystemUILyric.ChangeIcon | app/src/main/kotlin/statusbar/lyric/hook/module/SystemUILyric.kt:675-684 | nothing without the icon switch or playback; otherwise the icon is `IconChoice` |
| Lyric.SystemUILyric.OnSuperLyric | app/src/main/kotlin/statusbar/lyric/hook/module/SystemUILyric.kt:568-598 | null data or no container changes nothing; otherwise playing from the package; the title is re-posted only on a new (artist, album) with titles on, metadata and a title; an empty lyric stops there; a non-empty one is remembered, updates the icon and the view, leaves exactly one timeout and no pending title |
| Lyric.SystemUILyric.PostTitle | app/src/main/kotlin/statusbar/lyric/hook/module/SystemUILyric.kt:575-585 | with titles on, metadata and a non-empty title, a new (artist, album) is stored and replaces the one pending title runnable; otherwise all three are unchanged |
| Lyric.SystemUILyric.AcceptSuperLyric | app/src/main/kotlin/statusbar/lyric/hook/module/SystemUILyric.kt:572-597 | an accepted event: playing from the package; the title rule of `PostTitle`; an empty lyric changes nothing else; a non-empty one ends with the lyric remembered, the icon changed, state `AfterUpdate(show)`, one timeout and no pending title |
| Lyric.SystemUILyric.PlayLyric | app/src/main/kotlin/statusbar/lyric/hook/module/SystemUILyric.kt:587-597 | lyric remembered, icon changed, state `AfterUpdate(show)`, one pending timeout and the pending title gone |
| Lyric.SystemUILyric.ShowNewLyric | app/src/main/kotlin/statusbar/lyric/hook/module/SystemUILyric.kt:587-592 | lyric remembered, icon changed, state `AfterUpdate(show)` |
| Lyric.SystemUILyric.RestartTimeout | app/src/main/kotlin/statusbar/lyric/hook/module/SystemUILyric.kt:594-597 | every queued `what`-0 message, the title runnable among them, is removed and exactly one timeout is queued |
| Lyric.SystemUILyric.OnStop | app/src/main/kotlin/statusbar/lyric/hook/module/SystemUILyric.kt:555-566 | ignored for null data, no container, buffering, or another app than the playing one; otherwise not playing, lyric and app cleared, hidden, title and timeout cancelled |
| Lyric.SystemUILyric.StopPlayback | app/src/main/kotlin/statusbar/lyric/hook/module/SystemUILyric.kt:560-565 | an accepted stop: not playing, lyric and app cleared, pending title and timeout cancelled, state `AfterUpdate(hide)`, and the controller is hiding |
| Lyric.SystemUILyric.HandleTimeout | app/src/main/kotlin/statusbar/lyric/hook/module/SystemUILyric.kt:533-541 | the message is consumed; with timeoutRestore it clears lyric and app and hides, leaving `isMusicPlaying` as it was; without, the view state is unchanged; with no message nothing changes |
| Lyric.SystemUILyric.SetTitle | app/src/main/kotlin/statusbar/lyric/hook/module/SystemUILyric.kt:112-124 | stores the title; a changed title reaches the overlay unless it repeats the lyric and that is not wanted; empty hides it |
| Lyric.SystemUILyric.ShowTitleConsumer | app/src/main/kotlin/statusbar/lyric/hook/module/SystemUILyric.kt:544-550 | acts only while the same package is still playing |
| Lyric.SystemUILyric.FireTitleRunnable | app/src/main/kotlin/statusbar/lyric/hook/module/SystemUILyric.kt:581-582 | the pending title runnable is consumed and hands its data to the consumer |
| Lyric.SystemUILyric.OnScreenBroadcast | app/src/main/kotlin/statusbar/lyric/hook/module/SystemUILyric.kt:868-880 | screen off locks and hides; user present unlocks and re-shows only while playing with a non-empty lyric, and otherwise leaves the view state unchanged; unregistered, nothing changes |
| Lyric.SystemUILyric.OnConfigurationChanged | app/src/main/kotlin/statusbar/lyric/hook/module/SystemUILyric.kt:452-467 | portrait or landscape with a container re-runs `updateLyricState()`; anything else changes nothing |
| Lyric.SystemUILyric.OnStatusIconsVisibility | app/src/main/kotlin/statusbar/lyric/hook/module/SystemUILyric.kt:290-310 | learns the `system_icons` view once, leaving the view state unchanged; then mirrors its visibility onto the lyric while playing; any other view changes nothing |
| Lyric.SystemUILyric.LimitedVisibility | app/src/main/kotlin/statusbar/lyric/hook/module/SystemUILyric.kt:313-327 | never turns hidden into visible; a request to show is turned into GONE iff the hook is installed, playing, not hiding, hideTime, and the view is a container's clock |
| Lyric.SystemUILyric.OnTouchDown | app/src/main/kotlin/statusbar/lyric/hook/module/SystemUILyric.kt:349-351 | records the raw press point once a container exists |
| Lyric.SystemUILyric.HitTest | app/src/main/kotlin/statusbar/lyric/hook/module/SystemUILyric.kt:405-417 | true iff the point is inside some container's layout bounds, edges included |
| Lyric.SystemUILyric.AutoHide | app/src/main/kotlin/statusbar/lyric/hook/module/SystemUILyric.kt:520-525 | touches auto-hide once iff there is a controller and the host is fullscreen |
| Lyric.SystemUILyric.OnTouchUp | app/src/main/kotlin/statusbar/lyric/hook/module/SystemUILyric.kt:355-431 | consumes the event iff `DecideTouchUp` sends a key, re-shows, or hides on a hit; the sent key is appended; the state becomes the matching `AfterUpdate`, or stays when nothing acts |
| Lyric.SystemUILyric.UpdateThenAutoHide | app/src/main/kotlin/statusbar/lyric/hook/module/SystemUILyric.kt:401-403 | `updateLyricState` then auto-hide: the state is the update's, with one auto-hide touch in fullscreen |

The class invariant `SystemUILyric.Valid` holds across every event and is preserved by each method. It says:
- container targets are distinct;
- at most one timeout is pending;
- a remembered lyric implies music is playing;
- while hiding, every layout is hidden and empty.

### Notes on the code's behaviour

- **Long click.** A press counts as a long click only when it lasts more than 500 ms (`> 500`).
- **Overflow.** The speed is driven by the overflow `i = theoreticalWidth - lyricWidth`: the text width minus the displayed width. It is divided by the displayed width. Text that fits has no overflow and gets the configured speed (`Geometry.FittingTextUsesConfiguredSpeed`).
- **Integer division.** The dynamic proportion `i / lyricWidth` is integer division, so the dynamic speed is only ever 0.7 or 5.0 (`Geometry.OverflowingTextScenarios`).
- **Static speed is not clamped.** Only the delay and dynamic rules clamp to [0.3, 5.0]; the configured static speed is used as it is. In `showLyric`, static mode with overflow and no delay sets no speed at all.
- **Silence timeout.** It clears the lyric and the app but leaves `isMusicPlaying` set.
- **Title and timeout share `what` 0.** `postDelayed` queues the title runnable on `handler` as a message whose `what` is 0, the value of `timeoutRestore` (lines 532 and 582). Android's `Handler.hasMessages(what)` and `removeMessages(what)` match on the handler and `what` only, so the timeout restart at lines 594-597 also removes a pending title. An event that carries a new title and a non-empty lyric therefore never shows that title, and neither does one followed by a lyric line within 800 ms. The model follows this (`PlayLyric`, `RestartTimeout`); the matching rule is Android's, not part of this repository's code.
- **Island refit inside `updateConfig`.** Setting `superIslandWidth` inside `updateConfig`'s main-thread block posts the observer's refit as a second block, which runs after the configuration loop. `UpdateConfig` runs them in that order; `Lyric.RefitAllAfterConfiguredAllIsNoOp` shows that the late refit changes nothing.
- **`Int` arithmetic.** `10 * proportion` is an `Int` product (lines 234, 647 and 770). Once it passes 2^31 - 1 it wraps to a negative value, and the dynamic speed becomes 0.3 (`Geometry.DynamicModeWrapsToMinimum`). That needs an overflow over 214 million times the view's width.
- **Display size.** `displayWidth` and `displayHeight` are read once, `by lazy` (lines 152-154). `scaleWidth` uses the stored height in landscape even when the display has rotated since.
- **Frame callback.** `doFrame` registers the frame callback again even on the frame that ended the scroll; the next frame then does nothing.
- **Icon switch.** The icon switch that `changeIcon` reads is captured once, when the controller is created; `updateConfig` does not refresh it.
- **Limiting hook.** The visibility-limiting hook is installed according to the configuration as it was before `lyricHookInit` reloads it.

## Left out

- Colours, stroke width, letter spacing, text size, typefaces, fonts, backgrounds, animations, top/bottom margins, icon size and icon bitmaps (`base64ToBitmap`): rendering only, with no effect on the decisions.
- Text measurement, target widths, layout bounds, display size and orientation: these come from the host and are inputs (`Host`).
- Key-event injection through `shell`/`su`: modelled only as the emitted key code, appended to `keyEvents`.
- Handler, Looper, `postDelayed`, Choreographer and thread hand-off: posted blocks run inline. The timeout is a pending-message count and the title runnable an optional value; their delays (10 s, 800 ms) are not modelled as time. `@Volatile` visibility across threads is out of scope.
- The Xposed hook installation and reflection (`methodFinder`, `getObjectField`, `callMethod`): the facts they extract (fullscreen and transient-shown flags, island width, expansion fraction) are inputs.
- The weak reference to the big clock: a referenced view is never collected in the model.
- Preference storage and `config.update()`: the reloaded configuration is a parameter.
- `LyricSwitchView`, the per-container view that wraps two `LyricTextView`s, is not part of this model. A container records the text, width and speed the controller gives its lyric view, and the scroller is modelled on its own. The `resumeScroll` posts and `requestLayout` calls after a refit are therefore not modelled.
- The colour hook (`applyDarkIntensity`), the `CentralSurfacesImpl` constructor hook (its captured objects are `Host` inputs), `notificationIconArea` and `TitleDialog`: view plumbing. The title overlay is a shown/hidden value; the trimming of the shown title is not modelled.
- The order in which the two `setVisibility` hooks run on one call: each is modelled on its own.
- View visibility is a boolean; INVISIBLE and GONE are not distinguished.
- `Tools.UppercaseFirstChar`: Unicode `isLowerCase`/`titlecase` are parameters; the idempotence lemma is proved for the ASCII tables only.
- `Lyric.SystemUILyric.OnTouchUp`: a touch-up with no recorded press does nothing here; in the source, reading the unset `lateinit` point throws inside the hook.
- Xiaomi.XiaomiHooks.GetNotificationBigTime: returns the reference as stored; the weak reference's clearing by the garbage collector is not modelled.
- `Lyric.SystemUILyric.GetLyricWidth`: the display size is taken as one `Host` value that is the same on every event; the model does not capture the moment of the first read, only that the size never changes afterwards.
- `Xiaomi.ReservedIslandWidth`: `islandWidth + islandOffset` is an unbounded sum here; the source's 32-bit `Int` addition would wrap only past 2^31 - 1 pixels.
- `Geometry.LyricWidth`: `target.width - margins - superIslandWidth` is unbounded integer arithmetic here; the 32-bit wrap of the source is not modelled, since pixel widths and margins stay far from 2^31.
- Float rounding in the speed clamps, `scaleWidth` and scroll positions: reals are used.
