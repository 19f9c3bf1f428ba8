# Battery meter and status-bar icon controller

A Dafny model of two parts of the Android SystemUI status bar.

**The battery meter view** (`BatteryMeterView`) draws the battery glyph. Its model covers:

- the battery tracker, which parses battery-changed broadcasts under a test-mode gate and runs a calibration sweep;
- the rule for when charging is indicated;
- the geometry of one frame: the button cap and the body, the fill fraction and fill line, the nine-point outline, and the inset bolt frame;
- the bolt polyline and its cache, and the bolt-point loader;
- the choice of overlay (bolt, percentage text or warning glyph), and whether it is cut out of the shape or painted over it;
- the colour rules;
- the charge-animation state machine;
- demo mode.

**The status-bar icon controller** (`StatusBarIconController`) keeps the status-bar and keyguard icon rows. Its model covers:

- the dark-icon protocol around app transitions: immediate, animated and deferred changes, the deferring window, and its handler event;
- the twelve colour channels, each keeping a configured, a blended-from and an applied colour, with the one shared, tagged colour transition;
- the recomputation of dark tints;
- the icon blacklist parser;
- the two system-icon rows, kept in lock-step and rebuilt when the blacklist changes;
- the reconciliation of the notification-icon row with the active notifications;
- the clock style;
- the carrier-label visibility rule.

## Modelling choices

- **State changed in place** is modelled with classes, with field-granular frames: the tracker, the meter view, the controller and the view containers. Pure rules are functions.
  - Each method is tied to a specification function of its inputs and old state, for example `Update`, `Start`, `IconsDark`, `SetColors`, `Retint`, `Blacklist`, `ShownIcons` and `BoltPolyline`.
  - The properties the source promises are lemmas about those functions.
- **Floats** are `real`.
- **Java's `(int)` cast** on a float is `Trunc`, which rounds toward zero. `Math.round` is `Round`, which rounds half up.
- **The `(int)` of the level computation** saturates at the `int` range. A zero scale therefore gives `Integer.MAX_VALUE`, `Integer.MIN_VALUE` or 0, as Java's float division gives +∞, −∞ or NaN.
- **Time** is an explicit `now`.
  - The handler runnable that closes the deferring window is the field `deferringDoneAt`, delivered by `RunHandler(now)`.
  - The 50 ms delayed redraw of the charge animation is the flag `frameScheduled`, delivered by `Tick()`.
  - Invalidation is the flag `redrawRequested`.
- **The tint animator** is the animation last requested, as a record `(from, to, delay, duration)`, or none. Cancelling it clears it. Each frame's animated value is a parameter that lies between the animation's two ends.
- **The shared colour-transition animator** is a running flag and the tag `colorToChange`. The tag is overwritten by the last animated update.
- **`ArgbEvaluator`** is written out as the platform's per-channel linear interpolation, truncated to a byte (`Argb.Evaluate`). The model's `Retint` uses it.
- **The colour sources** of `StatusBarColorHelper` (configured and dark colours) are parameters.
- **The icon's parent.** The source tests whether a notification icon's view has no parent. The model reads that as "not a child of the notification row". `UpdateNotificationIcons` requires the shown icons to be distinct. It also assumes, without a precondition, that each shown icon is either in no row or already a child of the notification row: a view held by another container is outside the model.

## Model

BM = `packages/SystemUI/src/com/android/systemui/BatteryMeterView.java`, SC = `packages/SystemUI/src/com/android/systemui/statusbar/phone/StatusBarIconController.java`; the table spells the paths out.

| member | source | states |
|---|---|---|
| Argb.Trunc | packages/SystemUI/src/com/android/systemui/BatteryMeterView.java:500-502 | Java's float-to-int cast: the integer part, rounded toward zero on both signs |
| Argb.LerpByte | packages/SystemUI/src/com/android/systemui/statusbar/phone/StatusBarIconController.java:523-524 | an interpolated channel lies between its two ends, and equals the start at 0 and the end at 1 |
| Argb.Evaluate | packages/SystemUI/src/com/android/systemui/statusbar/phone/StatusBarIconController.java:526-547 | the dark blend of a colour is the colour itself at intensity 0, the dark colour at 1, constant when both are equal, and channel-wise between the two |
| BatteryTracking.IndicatesCharging | packages/SystemUI/src/com/android/systemui/BatteryMeterView.java:554-562 | charging is indicated exactly when the status is charging, or the battery is plugged and full |
| BatteryTracking.SaturateInt | packages/SystemUI/src/com/android/systemui/BatteryMeterView.java:500-502 | the cast to int keeps values inside the int range and clamps those outside it to the nearer bound |
| BatteryTracking.NormalizeLevel | packages/SystemUI/src/com/android/systemui/BatteryMeterView.java:500-502 | the percentage of a raw level within a positive scale is in 0..100: 100 at the scale, 0 at zero, and the raw level itself for scale 100; any result is an int |
| BatteryTracking.PercentBounds | packages/SystemUI/src/com/android/systemui/BatteryMeterView.java:500-502 | the truncated percentage of a level within its scale is in 0..100, exactly 100 at the scale, and exact for scale 100 |
| BatteryTracking.Accepts | packages/SystemUI/src/com/android/systemui/BatteryMeterView.java:498 | a broadcast is taken exactly when test mode is off or the broadcast carries the test-mode flag set |
| BatteryTracking.RunSweep | packages/SystemUI/src/com/android/systemui/BatteryMeterView.java:521-550 | the calibration runnable sends levels 0 to 99 on AC power, then 100 down to 0 unplugged, all flagged as test broadcasts, then one unflagged broadcast restoring the saved level and plug type that ends test mode |
| BatteryTracking.Tracker.constructor | packages/SystemUI/src/com/android/systemui/BatteryMeterView.java:479-492 | a new tracker has the unknown level -1, is unplugged with status, health, plug type, voltage and temperature 0, and is not in test mode |
| BatteryTracking.Tracker.OnBatteryChanged | packages/SystemUI/src/com/android/systemui/BatteryMeterView.java:495-512 | a broadcast refused by the test-mode gate changes nothing; a taken one sets the normalised level, the plug type and plugged flag, and health, status, technology, voltage and temperature from the extras with their defaults |
| BatteryTracking.Tracker.OnLevelTest | packages/SystemUI/src/com/android/systemui/BatteryMeterView.java:519-526 | the level-test action turns test mode on and yields the sweep that restores the level and plug type saved at that moment |
| BatteryTracking.Tracker.RunTestStep | packages/SystemUI/src/com/android/systemui/BatteryMeterView.java:528-540 | one sweep step: the last one turns test mode off before its broadcast is delivered, and the broadcast is taken exactly when the gate lets it through; a taken step writes every status field from the step's broadcast, and a refused one leaves them all as they were |
| BatteryTracking.SweepNeverIndicatesCharging | packages/SystemUI/src/com/android/systemui/BatteryMeterView.java:534-538 | every step of the sweep but the last is taken in test mode and, carrying no status, never makes the meter indicate charging |
| BatteryGeometry.Round | packages/SystemUI/src/com/android/systemui/BatteryMeterView.java:301-303 | `Math.round`: the nearest integer, halves rounded up |
| BatteryGeometry.LayoutShape | packages/SystemUI/src/com/android/systemui/BatteryMeterView.java:294-315 | the button cap is a quarter of the width in from each side, one button height tall, and smoothed; the body is the padded frame below it, smoothed on every side |
| BatteryGeometry.ButtonAboveBody | packages/SystemUI/src/com/android/systemui/BatteryMeterView.java:294-315 | with a non-negative height and button fraction, the button height is non-negative and the cap's top is not below the body's top |
| BatteryGeometry.LayoutNested | packages/SystemUI/src/com/android/systemui/BatteryMeterView.java:296-315 | when the subpixel smoothing is small against the view, the cap sits on top of the body, within its horizontal extent |
| BatteryGeometry.DrawFraction | packages/SystemUI/src/com/android/systemui/BatteryMeterView.java:321-339 | the fill fraction is 1 exactly when the level is at least 96, 0 at or below the critical level, the level over 100 in between, and within [0, 1] for a non-negative level |
| BatteryGeometry.DrawFractionMonotone | packages/SystemUI/src/com/android/systemui/BatteryMeterView.java:321-339 | a higher level never gives a smaller fill fraction |
| BatteryGeometry.LevelTopPlacement | packages/SystemUI/src/com/android/systemui/BatteryMeterView.java:341-342 | the fill line is the cap's top exactly at fraction 1; below that it lies strictly below the body's top and not below its bottom |
| BatteryGeometry.LevelTopMonotone | packages/SystemUI/src/com/android/systemui/BatteryMeterView.java:341-342 | a larger fill fraction never lowers the fill line |
| BatteryGeometry.Outline | packages/SystemUI/src/com/android/systemui/BatteryMeterView.java:345-354 | the battery shape is a closed path of nine points whose every edge is horizontal or vertical |
| BatteryGeometry.OutlineBounded | packages/SystemUI/src/com/android/systemui/BatteryMeterView.java:345-354 | for a cap nested on the body, every outline point lies within the body's sides and between the cap's top and the body's bottom |
| BatteryGeometry.BoltFrameInset | packages/SystemUI/src/com/android/systemui/BatteryMeterView.java:363-366 | the bolt frame is 40/63 of the body's width and 11/15 of its height, inside the body |
| BatteryGeometry.CoordMaxBounds | packages/SystemUI/src/com/android/systemui/BatteryMeterView.java:195-199 | the per-axis maximum starts at 0: it is at least 0 and at least every coordinate of its axis, and it is 0 or one of those coordinates |
| BatteryGeometry.AxisMaxima | packages/SystemUI/src/com/android/systemui/BatteryMeterView.java:195-199 | the first loop over the bolt points computes the maximum x and the maximum y |
| BatteryGeometry.DivideByMaxima | packages/SystemUI/src/com/android/systemui/BatteryMeterView.java:200-204 | the second loop fills a new array of the same length with each x over the x maximum and each y over the y maximum |
| BatteryGeometry.LoadBoltPoints | packages/SystemUI/src/com/android/systemui/BatteryMeterView.java:193-206 | the bolt points come back normalised per axis by their maxima, so non-negative points land in [0, 1] |
| BatteryGeometry.PlacedPointsShape | packages/SystemUI/src/com/android/systemui/BatteryMeterView.java:375-379 | the placed bolt points are one point per x, y pair, each scaled into the frame |
| BatteryGeometry.BoltPolylineShape | packages/SystemUI/src/com/android/systemui/BatteryMeterView.java:372-382 | the bolt path starts at the first placed point, runs through every placed point in order and returns to the first |
| BatteryGeometry.BoltInsideFrame | packages/SystemUI/src/com/android/systemui/BatteryMeterView.java:368-383 | with normalised points, every point of the bolt path lies inside the bolt frame |
| BatteryGeometry.BuildBoltPath | packages/SystemUI/src/com/android/systemui/BatteryMeterView.java:371-382 | the path-building loop yields exactly the bolt polyline of the frame |
| BatteryRender.ColorForLevel | packages/SystemUI/src/com/android/systemui/BatteryMeterView.java:264-278 | the colour for a level is the low-battery colour or the configured one; it is the low-battery colour exactly when the level is at or below the low level and power saving is off |
| BatteryRender.PluggedFillColor | packages/SystemUI/src/com/android/systemui/BatteryMeterView.java:318-319 | while plugged the fill colour does not depend on the level: it is the configured battery colour, unless the low level is at least 50 with power saving off, when it is the low-level colour |
| BatteryRender.BoltColor | packages/SystemUI/src/com/android/systemui/BatteryMeterView.java:367 | the bolt uses the text colour for level 50, which is the configured text colour when the low level is below 50 or power saving is on, and the low-level colour when the low level is at least 50 with power saving off |
| BatteryRender.BoltOverlayRule | packages/SystemUI/src/com/android/systemui/BatteryMeterView.java:360-393 | a frame shows the bolt, painted or cut out, exactly when charging is indicated and not both the percentage and the charge animation are on; with both on, the percentage text or the warning glyph is shown instead, even while charging |
| BatteryRender.Clamp01 | packages/SystemUI/src/com/android/systemui/BatteryMeterView.java:387 | the clamp lands in [0, 1] and keeps values already there |
| BatteryRender.BoltOpaqueIffLowFill | packages/SystemUI/src/com/android/systemui/BatteryMeterView.java:385-388 | with cutting out on and a bolt of positive height, the bolt is painted exactly when the fill line is at most 30% of the bolt's height above its bottom; the bound is inclusive |
| BatteryRender.BoltCutOutAsFillRises | packages/SystemUI/src/com/android/systemui/BatteryMeterView.java:385-388 | with cutting out on, a bolt that is cut out at some level is cut out at every higher level: the fill only ever covers more of it |
| BatteryRender.TextCutOutAsFillRises | packages/SystemUI/src/com/android/systemui/BatteryMeterView.java:403-405 | with cutting out on, percentage text that is cut out at some level is cut out at every higher level |
| BatteryRender.ComposeRules | packages/SystemUI/src/com/android/systemui/BatteryMeterView.java:356-440 | a frame has the outline, the frame and fill colours, and a fill rectangle from the fill line down. It has at most one overlay, and never one both cut out and painted. The bolt is cut out exactly when it is not painted. Otherwise the percentage is shown above the critical level, cut out exactly when not painted, at size 0.38 or 0.5 of the height. The warning glyph is shown at or below the critical level and never cut out. Without percentage and bolt there is nothing |
| ChargeAnimation.Update | packages/SystemUI/src/com/android/systemui/BatteryMeterView.java:598-618 | an update either meets a stop condition and snaps to the tracked level, or keeps animating one step up, wrapping above 100 to 0 |
| ChargeAnimation.Start | packages/SystemUI/src/com/android/systemui/BatteryMeterView.java:582-591 | an animation starts only when charging is indicated, the battery is not full and the animation is enabled; it starts from the tracked level and runs one update |
| ChargeAnimation.AnimationLevelBounded | packages/SystemUI/src/com/android/systemui/BatteryMeterView.java:611-615 | while charging, not full and enabled, a running animation keeps running and its level stays in 0..101 |
| ChargeAnimation.AnimationCycles | packages/SystemUI/src/com/android/systemui/BatteryMeterView.java:611-615 | under the same conditions the animated level cycles through 0..101 with period 102 |
| ChargeAnimation.AnimationSettles | packages/SystemUI/src/com/android/systemui/BatteryMeterView.java:602-608 | once charging is no longer indicated or the animation is disabled, a running animation reaches any tracked level in 0..101 within a bounded number of frames, stops there and stays idle |
| ChargeAnimation.AnimationNeverSettlesOutOfRange | packages/SystemUI/src/com/android/systemui/BatteryMeterView.java:598-618 | with a tracked level outside 0..101 and a battery that is not full, a running animation never stops and keeps its level in 0..101 |
| ChargeAnimation.StaysIdle | packages/SystemUI/src/com/android/systemui/BatteryMeterView.java:582-587 | an idle meter whose inputs do not start the animation stays idle and unchanged |
| ChargeAnimation.FullAnimationSettles | packages/SystemUI/src/com/android/systemui/BatteryMeterView.java:604-608 | with a full battery, a running animation climbs to 96 within a bounded number of frames, stops and snaps to the tracked level |
| BatteryMeter.EqualsIgnoreCase | packages/SystemUI/src/com/android/systemui/BatteryMeterView.java:473 | two strings are equal ignoring case exactly when they have the same length and agree letter by letter after ASCII case folding |
| BatteryMeter.ParseBooleanExamples | packages/SystemUI/src/com/android/systemui/BatteryMeterView.java:473 | the demo plug flag is true for "true" in any case, and false for "false", "", "1" and "truee" |
| BatteryMeter.ClampLevel | packages/SystemUI/src/com/android/systemui/BatteryMeterView.java:470 | the demo level is clamped to 0..100 |
| BatteryMeter.BatteryMeterView.constructor | packages/SystemUI/src/com/android/systemui/BatteryMeterView.java:104-147 | a new meter has both trackers at the unknown level, is not in demo mode or animating, has the frame colour at alpha 77 and white battery and text colours, cuts text out, reads the percentage setting, keeps its button fraction, smoothing and paddings as given, is not in power-save mode, has zero size, divides each bolt x by the largest x and each y by the largest y, and starts with an empty bolt cache |
| BatteryMeter.BatteryMeterView.InvalidateUnlessAnimating | packages/SystemUI/src/com/android/systemui/BatteryMeterView.java:244-246 | a redraw is requested unless the charge animation is running |
| BatteryMeter.BatteryMeterView.OnPowerSaveChanged | packages/SystemUI/src/com/android/systemui/BatteryMeterView.java:186-191 | the power-save state is taken over and a redraw requested unless animating |
| BatteryMeter.BatteryMeterView.OnSizeChanged | packages/SystemUI/src/com/android/systemui/BatteryMeterView.java:209-214 | the new width and height are stored with the warning font's height at that size |
| BatteryMeter.BatteryMeterView.UpdateShowPercent | packages/SystemUI/src/com/android/systemui/BatteryMeterView.java:216-221 | the percentage is shown exactly when the setting is non-zero, unless the tuner is ignored, in which case nothing changes |
| BatteryMeter.BatteryMeterView.OnSettingChanged | packages/SystemUI/src/com/android/systemui/BatteryMeterView.java:571-579 | a setting change re-reads the percentage setting and requests a redraw unless animating, both only when the tuner is not ignored |
| BatteryMeter.BatteryMeterView.SetTextVisibility | packages/SystemUI/src/com/android/systemui/BatteryMeterView.java:223-231 | an explicit percentage choice is taken and makes the meter ignore the tuner from then on |
| BatteryMeter.BatteryMeterView.SetShowChargeAnimation | packages/SystemUI/src/com/android/systemui/BatteryMeterView.java:233-240 | the flag is taken; a redraw is requested only when the animation is switched on from off |
| BatteryMeter.BatteryMeterView.SetCutOutBatteryText | packages/SystemUI/src/com/android/systemui/BatteryMeterView.java:242-247 | the cut-out flag is taken and a redraw requested unless animating |
| BatteryMeter.BatteryMeterView.SetBatteryColor | packages/SystemUI/src/com/android/systemui/BatteryMeterView.java:249-255 | the frame and fill colours are taken and a redraw requested unless animating |
| BatteryMeter.BatteryMeterView.SetBatteryTextColor | packages/SystemUI/src/com/android/systemui/BatteryMeterView.java:257-262 | the text colour is taken and a redraw requested unless animating |
| BatteryMeter.BatteryMeterView.ReceiveBatteryChanged | packages/SystemUI/src/com/android/systemui/BatteryMeterView.java:495-518 | a broadcast refused by the gate changes nothing; a taken one writes every status field of the live tracker from the broadcast (level, plug type and plugged flag, health, status, technology, voltage, temperature) and requests a redraw unless animating; test mode is unchanged either way |
| BatteryMeter.BatteryMeterView.DispatchDemoCommand | packages/SystemUI/src/com/android/systemui/BatteryMeterView.java:458-477 | `enter` outside demo mode copies the live level and plug state into the demo tracker; `exit` in demo mode leaves it and requests a redraw; `battery` in demo mode sets the given clamped level and parsed plug flag and requests a redraw; any other command, or one in the wrong mode, changes nothing |
| BatteryMeter.BatteryMeterView.Tick | packages/SystemUI/src/com/android/systemui/BatteryMeterView.java:617 | a scheduled animation frame, once due, becomes a redraw request, and nothing remains scheduled |
| BatteryMeter.BatteryMeterView.UpdateChargeAnim | packages/SystemUI/src/com/android/systemui/BatteryMeterView.java:598-618 | the animation fields follow one update for the tracker, and the next frame is scheduled exactly when the animation continues |
| BatteryMeter.BatteryMeterView.StartChargeAnim | packages/SystemUI/src/com/android/systemui/BatteryMeterView.java:582-591 | the animation fields follow the start rule for the tracker, and a frame is scheduled exactly when it starts |
| BatteryMeter.BatteryMeterView.AnimationStep | packages/SystemUI/src/com/android/systemui/BatteryMeterView.java:442-446 | at the end of a frame a running animation updates and an idle one tries to start |
| BatteryMeter.BatteryMeterView.RefreshBolt | packages/SystemUI/src/com/android/systemui/BatteryMeterView.java:368-383 | the cached bolt frame becomes this layout's bolt frame, and the cached path stays that frame's bolt polyline; the path is rebuilt only when the frame changed |
| BatteryMeter.BatteryMeterView.DrawKnown | packages/SystemUI/src/com/android/systemui/BatteryMeterView.java:286-446 | a frame at a known level is the composed scene for its tracker, filling for the animated level while animating; the bolt cache matches the layout when the bolt is shown and is untouched otherwise; without the bolt the text height becomes the negated ascent when the percentage is shown above the critical level, and it is unchanged in every other case; the charge animation takes its end-of-frame step |
| BatteryMeter.BatteryMeterView.PrepareOverlay | packages/SystemUI/src/com/android/systemui/BatteryMeterView.java:360-399 | with the bolt shown the bolt cache is brought up to date; otherwise, with the percentage shown above the critical level, the percentage font's height is taken |
| BatteryMeter.BatteryMeterView.Draw | packages/SystemUI/src/com/android/systemui/BatteryMeterView.java:281-447 | a draw serves the pending redraw request; at the unknown level nothing is drawn and nothing else changes; otherwise the frame is the composed scene for the shown tracker (the animated level fills while animating), the bolt cache matches the layout when the bolt is shown, the text height follows the same rule as in `DrawKnown`, and the animation takes its end-of-frame step |
| BatteryMeter.DemoNeverCharging | packages/SystemUI/src/com/android/systemui/BatteryMeterView.java:454-477 | in demo mode the shown tracker never indicates charging, so the bolt is never shown and the charge animation never starts |
| IconBlacklist.Pieces | packages/SystemUI/src/com/android/systemui/statusbar/phone/StatusBarIconController.java:641 | a value splits into at least one piece, and no piece contains a comma |
| IconBlacklist.JoinPieces | packages/SystemUI/src/com/android/systemui/statusbar/phone/StatusBarIconController.java:641 | joining the pieces with commas gives back the value |
| IconBlacklist.PiecesJoin | packages/SystemUI/src/com/android/systemui/statusbar/phone/StatusBarIconController.java:641 | splitting comma-free names joined with commas gives back the names |
| IconBlacklist.DropTrailingEmpty | packages/SystemUI/src/com/android/systemui/statusbar/phone/StatusBarIconController.java:641 | Java's split keeps a prefix of the pieces and drops only empty ones |
| IconBlacklist.JavaSplitNonEmpty | packages/SystemUI/src/com/android/systemui/statusbar/phone/StatusBarIconController.java:641-646 | Java's split and the plain split have the same non-empty pieces |
| IconBlacklist.NoCommaOnePiece | packages/SystemUI/src/com/android/systemui/statusbar/phone/StatusBarIconController.java:641 | a value without commas is one piece, itself |
| IconBlacklist.Blacklist | packages/SystemUI/src/com/android/systemui/statusbar/phone/StatusBarIconController.java:638-649 | no value gives the empty blacklist, and no slot in a blacklist is empty or contains a comma |
| IconBlacklist.GetIconBlacklist | packages/SystemUI/src/com/android/systemui/statusbar/phone/StatusBarIconController.java:638-649 | the parsing loop yields exactly the non-empty, untrimmed pieces between commas, and the empty set for no value |
| IconBlacklist.BlacklistOfJoin | packages/SystemUI/src/com/android/systemui/statusbar/phone/StatusBarIconController.java:638-649 | the blacklist of comma-separated slot names is exactly the set of the non-empty names |
| IconBlacklist.BlacklistExample | packages/SystemUI/src/com/android/systemui/statusbar/phone/StatusBarIconController.java:640-646 | "rotate,, headset," blacklists "rotate" and " headset": empty pieces vanish and spaces stay |
| IconBlacklist.EmptyBlacklistExample | packages/SystemUI/src/com/android/systemui/statusbar/phone/StatusBarIconController.java:640-646 | the empty value and a value of only commas blacklist nothing |
| TintChannels.GroupsDisjoint | packages/SystemUI/src/com/android/systemui/statusbar/phone/StatusBarIconController.java:77-81 | the five colour groups of the transition tag share no channel |
| TintChannels.SettledPalette | packages/SystemUI/src/com/android/systemui/statusbar/phone/StatusBarIconController.java:212-247 | at set-up every channel has its configured colour as configured, blended-from and applied colour |
| TintChannels.SetColorsEffect | packages/SystemUI/src/com/android/systemui/statusbar/phone/StatusBarIconController.java:804-821 | a non-animated colour update settles each updated channel on its new colour; an animated one changes only the configured colour; every other channel is untouched |
| TintChannels.SettleEffect | packages/SystemUI/src/com/android/systemui/statusbar/phone/StatusBarIconController.java:706-738 | the end of the colour transition settles exactly the tagged group on its configured colours and changes no configured colour |
| TintChannels.RetintEffect | packages/SystemUI/src/com/android/systemui/statusbar/phone/StatusBarIconController.java:520-550 | retinting keeps configured and blended-from colours; it applies the configured colour at intensity 0 and the dark colour at 1, depends on the configured colours only, and leaves the carrier label alone without mobile data |
| TintChannels.LastTagWins | packages/SystemUI/src/com/android/systemui/statusbar/phone/StatusBarIconController.java:159 | when a second group's animated update follows a first before the transition ends, the end settles only the second group, and the first keeps its new configured colour without applying it |
| TintProtocol.Max0 | packages/SystemUI/src/com/android/systemui/statusbar/phone/StatusBarIconController.java:492 | `Math.max(0, x)` is x when positive and 0 otherwise |
| TintProtocol.AnimateTo | packages/SystemUI/src/com/android/systemui/statusbar/phone/StatusBarIconController.java:499-518 | requesting a tint animation always drops the previous one; no new one is requested exactly when the intensity is already the target; otherwise it runs from the current intensity with the given delay and duration; nothing else changes |
| TintProtocol.DeferTo | packages/SystemUI/src/com/android/systemui/statusbar/phone/StatusBarIconController.java:552-558 | deferring records the pending intensity and marks a change pending, and nothing else |
| TintProtocol.InvPreserved | packages/SystemUI/src/com/android/systemui/statusbar/phone/StatusBarIconController.java:485-636 | every event keeps the protocol's invariant: a deferred change only while a transition is pending, intensities in [0, 1], and the window's end event pending exactly while deferring |
| TintProtocol.ImmediateIgnoresTransition | packages/SystemUI/src/com/android/systemui/statusbar/phone/StatusBarIconController.java:485-487 | without animation the intensity is set to 0 or 1 at once, whatever the transition state, and nothing else changes |
| TintProtocol.LastRequestWins | packages/SystemUI/src/com/android/systemui/statusbar/phone/StatusBarIconController.java:499-518 | two animation requests in a row leave only the second |
| TintProtocol.DeferIdempotent | packages/SystemUI/src/com/android/systemui/statusbar/phone/StatusBarIconController.java:552-558 | deferring the same intensity twice is deferring it once |
| TintProtocol.TransitionEnds | packages/SystemUI/src/com/android/systemui/statusbar/phone/StatusBarIconController.java:610-636 | after a transition is cancelled or starts, no transition and no deferred change is pending |
| TintProtocol.DeferredChangeFollowsTransition | packages/SystemUI/src/com/android/systemui/statusbar/phone/StatusBarIconController.java:618-624 | an animated change while a transition is pending is not applied; when the transition starts it is animated from the current intensity, delayed until the start time and lasting as long as the transition |
| TintProtocol.DeferredChangeOnCancel | packages/SystemUI/src/com/android/systemui/statusbar/phone/StatusBarIconController.java:610-616 | when the transition is cancelled, a deferred change is animated at once over 120 ms |
| TintProtocol.DeferringWindow | packages/SystemUI/src/com/android/systemui/statusbar/phone/StatusBarIconController.java:625-634 | a transition starting with no change deferred opens a window: a change inside it is animated to begin at the start time and last as long as the transition; after the handler closes the window at the start time, a change is animated at once over 120 ms |
| ViewGroups.InsertAt | packages/SystemUI/src/com/android/systemui/statusbar/phone/StatusBarIconController.java:350 | inserting at an index puts the element there, keeps what was before it and shifts the rest up by one |
| ViewGroups.RemoveAt | packages/SystemUI/src/com/android/systemui/statusbar/phone/StatusBarIconController.java:308 | removing at an index keeps what was before it and shifts the rest down by one |
| ViewGroups.RemoveFirstMembers | packages/SystemUI/src/com/android/systemui/statusbar/phone/StatusBarIconController.java:344 | removing a child drops exactly that one and shortens the list by one; removing a non-child changes nothing |
| ViewGroups.RemoveEachMembers | packages/SystemUI/src/com/android/systemui/statusbar/phone/StatusBarIconController.java:342-345 | removing each of a list of views from a row without repeats leaves exactly the children not in that list, still without repeats |
| ViewGroups.MoveTo | packages/SystemUI/src/com/android/systemui/statusbar/phone/StatusBarIconController.java:362-363 | removing a child found beyond an index and adding it back at that index keeps the children before it, the members and the count, and keeps the row free of repeats |
| ViewGroups.ViewGroup.AddView | packages/SystemUI/src/com/android/systemui/statusbar/phone/StatusBarIconController.java:287-292 | adding a view at a negative index appends it; otherwise it is inserted at the index |
| ViewGroups.ViewGroup.RemoveView | packages/SystemUI/src/com/android/systemui/statusbar/phone/StatusBarIconController.java:342-345 | removing a view drops its first occurrence and ignores a non-child |
| ViewGroups.ViewGroup.RemoveViewAt | packages/SystemUI/src/com/android/systemui/statusbar/phone/StatusBarIconController.java:307-310 | removing at an index drops the child there |
| ViewGroups.ViewGroup.SetChildAt | packages/SystemUI/src/com/android/systemui/statusbar/phone/StatusBarIconController.java:299-302 | setting a new icon on the child at an index changes that child only |
| StatusBarIcons.ShownIconsAppend | packages/SystemUI/src/com/android/systemui/statusbar/phone/StatusBarIconController.java:321-332 | the icons shown for two runs of notifications are those of the first run followed by those of the second |
| StatusBarIcons.ShownIconsMembers | packages/SystemUI/src/com/android/systemui/statusbar/phone/StatusBarIconController.java:321-332 | an icon is shown exactly when some notification that is neither ambient-and-hidden nor a group child has it |
| StatusBarIcons.Reblocked | packages/SystemUI/src/com/android/systemui/statusbar/phone/StatusBarIconController.java:265-271 | rebuilding the system icons keeps their slots, icons and order, and marks each blocked exactly when its slot is blacklisted |
| StatusBarIcons.ClockViewsFor | packages/SystemUI/src/com/android/systemui/statusbar/phone/StatusBarIconController.java:831-847 | the default style shows the default clock alone; the centred style shows the centred clock with its layout; the hidden style shows neither; an unknown style changes nothing |
| StatusBarIcons.ClockStyleExclusive | packages/SystemUI/src/com/android/systemui/statusbar/phone/StatusBarIconController.java:831-847 | for every known style at most one clock shows, and the centred clock shows exactly with its layout |
| StatusBarIcons.CarrierLabelShown | packages/SystemUI/src/com/android/systemui/statusbar/phone/StatusBarIconController.java:742-748 | the carrier label shows only when asked to, always when asked to without forced hiding, and with forced hiding exactly while the notification icons are fewer than the maximum |
| StatusBarIcons.CarrierLabelMonotone | packages/SystemUI/src/com/android/systemui/statusbar/phone/StatusBarIconController.java:742-748 | more notification icons never bring the carrier label back |
| StatusBarIcons.StatusBarIconController.constructor | packages/SystemUI/src/com/android/systemui/statusbar/phone/StatusBarIconController.java:212-250 | a new controller has empty rows, intensity 0 with no transition, deferral or animation, every channel at rest on its configured colour, the carrier label as the colour to change, an empty blacklist, the default clock style with the clock not centred in the row, and the given mobile-data flag, clocks and carrier-label visibility |
| StatusBarIcons.StatusBarIconController.SetIconTintInternal | packages/SystemUI/src/com/android/systemui/statusbar/phone/StatusBarIconController.java:520-550 | the intensity is stored and every channel retinted towards its dark colour |
| StatusBarIcons.StatusBarIconController.AnimateIconTint | packages/SystemUI/src/com/android/systemui/statusbar/phone/StatusBarIconController.java:499-518 | the protocol state follows the animation-request rule |
| StatusBarIcons.StatusBarIconController.DeferIconTintChange | packages/SystemUI/src/com/android/systemui/statusbar/phone/StatusBarIconController.java:552-558 | the protocol state follows the deferral rule |
| StatusBarIcons.StatusBarIconController.SetIconsDark | packages/SystemUI/src/com/android/systemui/statusbar/phone/StatusBarIconController.java:485-497 | the protocol state follows the dark-icon rule with the invariant kept; only the immediate path retints the channels |
| StatusBarIcons.StatusBarIconController.AppTransitionPending | packages/SystemUI/src/com/android/systemui/statusbar/phone/StatusBarIconController.java:606-608 | a transition becomes pending and the invariant is kept |
| StatusBarIcons.StatusBarIconController.AppTransitionCancelled | packages/SystemUI/src/com/android/systemui/statusbar/phone/StatusBarIconController.java:610-616 | the protocol state follows the cancellation rule with the invariant kept |
| StatusBarIcons.StatusBarIconController.AppTransitionStarting | packages/SystemUI/src/com/android/systemui/statusbar/phone/StatusBarIconController.java:618-636 | the protocol state follows the transition-start rule with the invariant kept; the window's end event is posted for the start time, replacing an earlier one |
| StatusBarIcons.StatusBarIconController.RunHandler | packages/SystemUI/src/com/android/systemui/statusbar/phone/StatusBarIconController.java:168-173 | the window's end event, once due, closes the deferring window |
| StatusBarIcons.StatusBarIconController.TintAnimationFrame | packages/SystemUI/src/com/android/systemui/statusbar/phone/StatusBarIconController.java:508-513 | a frame of the tint animation applies its animated intensity and retints every channel |
| StatusBarIcons.StatusBarIconController.TintAnimationEnd | packages/SystemUI/src/com/android/systemui/statusbar/phone/StatusBarIconController.java:507-517 | the last frame applies the target intensity, retints every channel, and ends the animation |
| StatusBarIcons.StatusBarIconController.ChangeColors | packages/SystemUI/src/com/android/systemui/statusbar/phone/StatusBarIconController.java:763-770 | a group's new configured colours are settled at once, or, animated, only the configured colours change, the group is tagged and the transition runs |
| StatusBarIcons.StatusBarIconController.UpdateCarrierLabelColor | packages/SystemUI/src/com/android/systemui/statusbar/phone/StatusBarIconController.java:761-772 | the carrier label's colour update follows the group rule under the carrier-label tag |
| StatusBarIcons.StatusBarIconController.UpdateBatteryColors | packages/SystemUI/src/com/android/systemui/statusbar/phone/StatusBarIconController.java:804-826 | the battery frame, fill and text colours update together under the battery tag |
| StatusBarIcons.StatusBarIconController.UpdateClockColor | packages/SystemUI/src/com/android/systemui/statusbar/phone/StatusBarIconController.java:856-873 | the clock colour updates under the clock tag |
| StatusBarIcons.StatusBarIconController.UpdateNetworkTrafficColors | packages/SystemUI/src/com/android/systemui/statusbar/phone/StatusBarIconController.java:875-889 | the traffic text and icon colours update under the traffic tag, animated only while the indicator is updating |
| StatusBarIcons.StatusBarIconController.UpdateStatusNetworkIconColors | packages/SystemUI/src/com/android/systemui/statusbar/phone/StatusBarIconController.java:891-916 | the status-icon, signal, no-SIM and airplane colours update together under the status-and-network tag |
| StatusBarIcons.StatusBarIconController.UpdateNotificationIconColor | packages/SystemUI/src/com/android/systemui/statusbar/phone/StatusBarIconController.java:927-939 | the notification-icon colour is configured and applied at once, never animated, and no other channel changes |
| StatusBarIcons.StatusBarIconController.OnBlendEnd | packages/SystemUI/src/com/android/systemui/statusbar/phone/StatusBarIconController.java:706-738 | the end of the colour transition settles the tagged group and the transition is over |
| StatusBarIcons.StatusBarIconController.AddSystemIcon | packages/SystemUI/src/com/android/systemui/statusbar/phone/StatusBarIconController.java:283-295 | both rows get the same new view at the index (appended when negative), blocked exactly when its slot is blacklisted |
| StatusBarIcons.StatusBarIconController.UpdateSystemIcon | packages/SystemUI/src/com/android/systemui/statusbar/phone/StatusBarIconController.java:297-305 | both rows' views at the index show the new icon, and nothing else changes |
| StatusBarIcons.StatusBarIconController.RemoveSystemIcon | packages/SystemUI/src/com/android/systemui/statusbar/phone/StatusBarIconController.java:307-310 | both rows lose the view at the index, staying in lock-step |
| StatusBarIcons.StatusBarIconController.OnTuningChanged | packages/SystemUI/src/com/android/systemui/statusbar/phone/StatusBarIconController.java:252-272 | another key changes nothing; the blacklist key sets the parsed blacklist and, by removing every icon from the last and adding them back in order, rebuilds each view with its new blocked flag, same slots, icons and order |
| StatusBarIcons.StatusBarIconController.UpdateNotificationIcons | packages/SystemUI/src/com/android/systemui/statusbar/phone/StatusBarIconController.java:312-367 | afterwards the notification row holds exactly the icons of the notifications that show one, in the notifications' order |
| StatusBarIcons.StatusBarIconController.FilterShown | packages/SystemUI/src/com/android/systemui/statusbar/phone/StatusBarIconController.java:321-332 | the filter loop drops ambient notifications not shown when unprovisioned, and group children, keeping the order |
| StatusBarIcons.StatusBarIconController.ChildrenNotShown | packages/SystemUI/src/com/android/systemui/statusbar/phone/StatusBarIconController.java:334-340 | the views to remove are exactly the children not to be shown |
| StatusBarIcons.StatusBarIconController.RemoveAll | packages/SystemUI/src/com/android/systemui/statusbar/phone/StatusBarIconController.java:342-345 | after the removal loop the children are exactly the earlier children that are to be shown |
| StatusBarIcons.StatusBarIconController.AddMissing | packages/SystemUI/src/com/android/systemui/statusbar/phone/StatusBarIconController.java:347-352 | after the insertion loop the row holds exactly the icons to show, once each; no insertion index exceeds the child count |
| StatusBarIcons.StatusBarIconController.Resort | packages/SystemUI/src/com/android/systemui/statusbar/phone/StatusBarIconController.java:354-364 | the re-sorting loop puts the children in the order of the icons to show |
| StatusBarIcons.StatusBarIconController.PlaceAt | packages/SystemUI/src/com/android/systemui/statusbar/phone/StatusBarIconController.java:356-364 | one re-sorting step extends the correctly ordered prefix by one and keeps the members and the count |
| StatusBarIcons.StatusBarIconController.UpdateClockStyle | packages/SystemUI/src/com/android/systemui/statusbar/phone/StatusBarIconController.java:828-849 | the style is stored, the clock views follow the style rule, and the notification row makes room for a centred clock exactly with the centred style |
| StatusBarIcons.StatusBarIconController.UpdateCarrierLabelVisibility | packages/SystemUI/src/com/android/systemui/statusbar/phone/StatusBarIconController.java:742-748 | the carrier label's visibility follows the visibility rule for the current number of notification icons |

## Left out

- Drawing is not modelled: Skia paths, the boolean subtraction and intersection of paths, canvas draws, `Paint`, `Typeface` and `getTextPath`.
  - The model keeps the polygons and rectangles that go into them, and the cut-or-draw decisions.
  - The ascents of the percentage and warning fonts are parameters (`percentAscent`, `warningAscent`).
- Floats are real numbers. Float rounding is therefore not modelled, apart from the explicit `(int)` casts and `Math.round`.
- `BatteryGeometry.LoadBoltPoints` requires positive axis maxima, and `BatteryMeter.BatteryMeterView.constructor` requires at least one x, y pair. Float division by zero, and a bolt resource without points, are not modelled: such a resource is a configuration error of the device.
- `BatteryMeter.BatteryMeterView.BoltCacheValid` holds the cached bolt path to its frame only once that frame differs from the initial empty rectangle. This follows the source, whose bolt frame starts as `RectF()`: a layout whose bolt frame is exactly the empty rectangle at the origin never builds a path.
- The content description that a taken battery broadcast sets (the accessibility text for the level) is not modelled. Neither is the tracker's `percentStr`, which the source never sets.
- Demo mode is limited in three ways:
  - a level that `Integer.parseInt` cannot parse is not modelled, and the level argument is an `Option<int>`;
  - `postInvalidate` is the same redraw flag as `invalidate`;
  - `SINGLE_DIGIT_PERCENT` is the constant `false`, so only that branch of the text size and text is modelled.
- Animator timing is not modelled: `ValueAnimator` schedules, interpolators and start delays.
  - The tint animation's frame values are parameters, constrained to lie between the two ends.
  - The start delay and duration are recorded but not enforced.
  - A restarted colour transition delivers no end callback for the earlier start, as in the source. Only the end callback of the run in progress is modelled.
- The colour transition's per-frame blend (`ColorHelper.getBlendColor` and the view pushes in lines 655-705 of `StatusBarIconController.java`) changes no field of the controller, so it is not modelled.
- View colour pushes are not modelled: `applyIconTint`, `applyNotificationIconsTint`, the keyguard colours, `setTextColor`, `setImageTintList` and the signal cluster's tint. The model keeps the colour values that would be pushed.
- `isGrayscale` and its memoisation depend on `NotificationColorUtil`, which is not part of this model. They only choose which views receive a pushed colour.
- The colour sources in `StatusBarColorHelper` are parameters: the configured colours and their dark variants.
- `DeviceUtils.deviceSupportsMobileData` is a constant of the controller.
- Times are unbounded integers, so overflow of `long` uptime values is not modelled.
- `StatusBarIcons.StatusBarIconController.UpdateNotificationIcons` requires the shown icons to be distinct. A view held twice, or held by a container other than the notification row, is not modelled.
- The first tuner callback at registration is simply one more call of `OnTuningChanged`.
- The `index` parameter of `addSystemIcon`, `updateSystemIcon` and `removeSystemIcon`, and the `slot` parameter of `updateSystemIcon` and `removeSystemIcon`, are not modelled, because the source does not use them.
- The notification-icon channel's blended-from colour is never read; in the source that channel has no such field.
- View visibility animations, the keyguard fade, and layout and resource loading are not modelled. These include:
  - `hideSystemIconArea`, `showSystemIconArea`, `hideNotificationIconArea` and `showNotificationIconArea`;
  - `setClockVisibility`, `dispatchClockDemoCommand`, `updateClockSettings`, `updateResources`, `FontSizeUtils` and `dump`;
  - `updateCarrierLabelKeyguardVisibility` and `updateCarrierLabelSettings`, which only forward a visibility or re-read settings;
  - `DemoStatusIcons`;
  - the battery-bar and battery-visibility setters (`updateBatteryVisibility`, `updateBatteryBarVisibility`, `updateBatteryTextVisibility`, `updateShowChargeAnimation`, `updateCutOutBatteryText`). These only forward to the meter's own setters, which are modelled.
- Exceptions the source would throw are preconditions here, so the model does not capture those failures:
  - `ViewGroups.ViewGroup.AddView` requires an index at most the child count, where `ViewGroup.addView` throws `IndexOutOfBoundsException`;
  - `StatusBarIcons.StatusBarIconController.AddSystemIcon` requires the same of its view index, for the same exception;
  - `StatusBarIcons.StatusBarIconController.UpdateSystemIcon` requires an index in range, where `getChildAt` returns null and `view.set` throws `NullPointerException`;
  - `StatusBarIcons.StatusBarIconController.RemoveSystemIcon` requires an index in range, where `removeViewAt` fails on the missing child (`ViewGroups.ViewGroup.RemoveViewAt` and `ViewGroups.ViewGroup.SetChildAt` require the same);
  - `BatteryGeometry.DivideByMaxima` and `BatteryGeometry.LoadBoltPoints` require an even-length bolt resource, where an odd length makes `pts[i + 1]` throw `ArrayIndexOutOfBoundsException`;
  - `StatusBarIcons.StatusBarIconController.AppTransitionStarting` requires a non-negative duration, where `ValueAnimator.setDuration` throws `IllegalArgumentException` once that duration is used.
- Broadcast registration, content observers, `Settings`, `TunerService` and the battery controller callback are not modelled. Their values arrive as method arguments.

## Notes on the code's behaviour

- **Fill fraction at or below the critical level.** The full test comes first and the critical test next. A level at or below the critical level therefore gives fraction 0, even though it is below 96.
- **The fill line when empty.** Fraction 0 puts the fill line exactly on the body's bottom. Below fraction 1 it is therefore strictly below the body's top but only at or above its bottom.
- **Timing of the deferring window.** The transition's start time and duration apply only while the deferring window is open. Once the handler closes it at the start time, changes animate over the default 120 ms.
- **The 50% colour preview.** The fill uses the 50% colour whenever the battery is plugged, whether or not it is charging. The bolt always uses the text colour for 50%.
- **A full, charging battery.** The charge animation never starts for a full battery. A running animation that sees the battery become full climbs to 96 and stops (`FullAnimationSettles`).
- **A tracked level outside 0..101.** The animated level only cycles through 0..101, so it never meets such a level. Unless the battery is full, a running charge animation then never stops (`AnimationNeverSettlesOutOfRange`). Level 101 is inside the cycle, so once charging is no longer indicated the animation stops there like at any level in 0..100 (`AnimationSettles`). Such a level comes from a broadcast whose level exceeds its scale, or from a zero scale, which saturates the level cast to `Integer.MAX_VALUE` or `Integer.MIN_VALUE`.
