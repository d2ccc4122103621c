# Lyric display controllers

This project models the two lyric-display controllers of a music player and proves properties of them.

- **The Windows desktop lyric window** (`windows/runner/desktop_lyric_window.cpp`). It is a borderless, always-on-top strip 800 px wide. It shows the current lyric line and, optionally, its translation. A line wider than the window less 40 px of padding scrolls once from left to right: the line first pauses, then moves at a speed derived from the line's duration, and stops at its end. When the pointer dwells on the strip, it expands into a control panel with eight buttons. A press on the panel is routed to the first button that contains it; a press anywhere else starts a drag that moves the window, when the window is draggable.
- **The Android floating lyric** (`FloatingLyricPlugin.kt`). It is an overlay text view. It holds the song's lines sorted by time and a playback position. Between position syncs from the host, a service tick extrapolates the position from the last sync. The view shows the last line that starts at or before the position, and it is touched only when that line changes.

The model is organised as follows:

| file | module | what it holds |
|---|---|---|
| `Numeric.dfy` | `Numeric` | truncation toward zero, C++ integer division, and `static_cast<int>(n * 0.k)` on integers |
| `ScrollAnimator.dfy` | `ScrollAnimator` | one scroll frame of one line as a pure function, its rules, runs of frames, and the imperative scroll block `AdvanceLine` |
| `PanelLayout.dfy` | `PanelLayout` | the two window heights, the eight button rectangles, and the priority hit-test |
| `PointerInput.dfy` | `PointerInput` | decoding of the mouse coordinates packed into `lparam`, as written and corrected |
| `DesktopLyric.dfy` | `DesktopLyric` | the window as a class: setters, repaint, control panel, button dispatch, window-procedure handlers |
| `LyricTimeline.dfy` | `LyricTimeline` | lyric lines, the stable sort by time, the current-line index, trimming and the displayed text |
| `FloatingLyric.dfy` | `FloatingLyric` | the Android controller as a class: view, drag listener, alpha, lyrics data, position syncing, update loop |
| `Wrappers.dfy` | `Wrappers` | `Option` |

Abstractions behind the model:

- **Time.** The system tick count is an explicit `now` parameter. The tick count is assumed never to go backwards: the repainting methods require `ClockAt(now)`.
- **Text measurement.** The width the graphics library measures for a text is a constant function `measureText` of the window object.
- **The scroll pause.** The pause before scrolling starts is a positive constant `scrollPauseMs`, given to the constructor.
- **Scroll arithmetic** is done over `real`.
- **Integer arithmetic.** Heights use exact integer arithmetic. `static_cast<int>(fs * 0.7f)` is the exact product truncated toward zero (`ScaleTenths`, related to `Trunc` by `ScaleTenthsIsTrunc`).
- **Repaints.** A repaint is specified by the pure function `Paint` over the fields it reads (`PaintConfig`) and writes (`PaintState`). The window's methods are proved to equal it.
- **The Android view** is modelled by fields that are set synchronously: `visible`, `display`, `posX`, `posY`, `dragListener`. The service callback is the flag `updateLoopActive`, and one tick of it is `OnUpdateTick(now)`.

Two worked figures from the code:

- **The scroll scenario.** A 3000 ms line measured 1200 px wide in the 800 px window has a maximum scroll of 1200 − 800 + 40 = 440 px. With a 500 ms pause it scrolls at 440 / 2.2 = 200 px/s. One second after the pause ends, it stands at 200 px (`ScrollScenario`).
- **The panel height.** With the default 32 px font and a translation, `GetControlPanelHeight` gives 70 + 32 + 10 + (22 + 5) + 104 = 243 px (`DefaultFontHeights`).

## Model

| member | source | states |
|---|---|---|
| Numeric.Trunc | windows/runner/desktop_lyric_window.cpp:294 | the conversion truncates toward zero: the result is the integer part, within one unit of the real and on the same side of zero |
| Numeric.DivTrunc | windows/runner/desktop_lyric_window.cpp:112 | C++ division truncates toward zero: for a non-negative dividend the quotient is the floor, for a negative one the ceiling |
| Numeric.ScaleTenthsIsTrunc | windows/runner/desktop_lyric_window.cpp:294 | the integer form of `static_cast<int>(n * 0.k)` equals the truncation of the exact real product |
| Numeric.ScaleTenthsMonotone | windows/runner/desktop_lyric_window.cpp:310 | scaling by a non-negative factor preserves the order of the font sizes |
| ScrollAnimator.ScrollLimit | windows/runner/desktop_lyric_window.cpp:400-404 | the largest offset is never negative; it is positive exactly when the line needs to scroll, and then it equals width − viewport + 40 |
| ScrollAnimator.ResetState | windows/runner/desktop_lyric_window.cpp:173-186 | a changed line restarts at the left edge in a reachable state, pausing from `now`, with its speed to be derived again |
| ScrollAnimator.DerivedSpeed | windows/runner/desktop_lyric_window.cpp:407-414 | the derived speed is positive for any line that has something to scroll |
| ScrollAnimator.DerivedSpeedCovers | windows/runner/desktop_lyric_window.cpp:407-414 | at the derived speed the line covers its maximum scroll exactly in the available time (90% of the duration less the pause), or in half a second when no more than 100 ms are available |
| ScrollAnimator.ShortLineFallbackSpeed | windows/runner/desktop_lyric_window.cpp:412-413 | a 100 ms line takes the fallback speed of twice its maximum scroll per second |
| ScrollAnimator.ScrollFrame | windows/runner/desktop_lyric_window.cpp:394-428 | every frame re-measures the width and re-decides whether the line scrolls; from a sane state with time moving forward the offset never goes back; a pause can only end, never restart |
| ScrollAnimator.ScrollFrameRules | windows/runner/desktop_lyric_window.cpp:394-428 | a line that fits is not touched; the speed is derived only while the cached speed is not positive, then kept; the pause holds the offset, also on the frame that ends it; after the pause the offset advances by speed × elapsed seconds, clamped at the maximum; the offset never passes the maximum |
| ScrollAnimator.DrawOffset | windows/runner/desktop_lyric_window.cpp:429 | a line that fits is drawn unshifted; a scrolling line is shifted left, never right |
| ScrollAnimator.DrawnLineEndInView | windows/runner/desktop_lyric_window.cpp:401-446 | after a frame from a reachable state the line is shifted left by at most its maximum scroll; the text rectangle starts half the padding right of that shift, so the end of a scrolling line never passes the window's right edge less half the padding |
| ScrollAnimator.StillScrolling | windows/runner/desktop_lyric_window.cpp:597-600 | a line only animates while it needs to scroll; once its pause is over it animates exactly until its offset reaches its maximum scroll |
| ScrollAnimator.ScrollTimerStopsAtEnd | windows/runner/desktop_lyric_window.cpp:394-607 | after a frame from a reachable state the repaint timer is disarmed exactly when the line fits, or its pause is over and it stands at its maximum scroll |
| ScrollAnimator.RunFramesMonotoneBounded | windows/runner/desktop_lyric_window.cpp:416-428 | over any run of repaints at non-decreasing ticks the offset never decreases and never exceeds max(0, width − viewport + 40), and a speed once derived never changes |
| ScrollAnimator.RunFramesSpeed | windows/runner/desktop_lyric_window.cpp:407-414 | after any non-empty run of repaints, a scrolling line moves at the speed derived from its maximum scroll and duration, whatever the frame timings, unless it had a speed already |
| ScrollAnimator.RunFramesPaused | windows/runner/desktop_lyric_window.cpp:417-420 | repaints that all fall inside the pause leave the offset and the pause start unchanged |
| ScrollAnimator.ScrollScenario | windows/runner/desktop_lyric_window.cpp:394-428 | a 3000 ms line 1200 px wide in 800 px with a 500 ms pause scrolls at 200 px/s; one second after its pause ends it stands at 200 px |
| ScrollAnimator.AdvanceLine | windows/runner/desktop_lyric_window.cpp:394-428 | the imperative scroll block computes exactly one `ScrollFrame` of the line |
| PanelLayout.ActionNamesDistinct | windows/runner/desktop_lyric_window.cpp:753-780 | the eight action names handed to the callback are pairwise distinct, so the callback can tell every button apart |
| PanelLayout.FirstHit | windows/runner/desktop_lyric_window.cpp:748-780 | the result is the first rectangle, in the given order, that contains the point; no earlier rectangle contains it; −1 means none does |
| PanelLayout.InRect | windows/runner/desktop_lyric_window.cpp:748-751 | `IsPointInRect` is inclusive on all four edges: only a rectangle of non-negative extent contains a point, and its corners belong to it |
| PanelLayout.HitTest | windows/runner/desktop_lyric_window.cpp:753-780 | the selected button contains the press, and no button is selected only when no rectangle contains it |
| PanelLayout.ChainHit | windows/runner/desktop_lyric_window.cpp:753-780 | the `else if` chain of `HandleButtonClick`: the button it selects contains the press |
| PanelLayout.HitTestFirstMatch | windows/runner/desktop_lyric_window.cpp:753-780 | a press selects a button exactly when it lies in that button's inclusive rectangle and in no rectangle earlier in the order previous, play_pause, next, font_size_up, font_size_down, color_picker, toggle_translation, close; it selects nothing exactly when it lies in none |
| PanelLayout.HitTestIsChain | windows/runner/desktop_lyric_window.cpp:753-780 | the source's if-else chain agrees with the first-match hit-test on every point and every set of rectangles |
| PanelLayout.ButtonsFitPanel | windows/runner/desktop_lyric_window.cpp:944-1050 | the second button row ends at least 15 px above the bottom of the panel exactly when a lyric line is shown or the font size is at least −10; with such a font size all eight buttons lie inside the 800 px panel |
| PanelLayout.LayoutDisjoint | windows/runner/desktop_lyric_window.cpp:829-1113 | with a non-negative font size, no two of the eight recorded rectangles share a pixel |
| PanelLayout.FreshLayoutHit | windows/runner/desktop_lyric_window.cpp:753-780 | on a freshly painted panel the priority order decides nothing: a press selects a button exactly when it lies in that button's rectangle |
| PanelLayout.HeightsMonotone | windows/runner/desktop_lyric_window.cpp:284-316 | both the panel height and the compact height grow with the font size |
| PanelLayout.PanelHeight | windows/runner/desktop_lyric_window.cpp:284-298 | `GetControlPanelHeight`: 70 + fs + 10, plus `static_cast<int>(fs * 0.7f)` + 5 with a translation, plus 104; the panel ends exactly 15 px below the second button row of a panel showing a lyric line |
| PanelLayout.CompactHeight | windows/runner/desktop_lyric_window.cpp:305-316 | the compact strip is 100 px without a translation; a translation adds `static_cast<int>(fs * 0.6f)` + 10, that is 10 px and at most one more font size |
| PanelLayout.Layout | windows/runner/desktop_lyric_window.cpp:804-1113 | the rectangles `DrawControlPanel` records: previous, play-pause and next on one row 50 px apart with play-pause centred; the four small buttons 10 px below that row; close 10 px in from the top-right corner |
| PanelLayout.PanelTallerThanCompact | windows/runner/desktop_lyric_window.cpp:284-316 | for a non-negative font size the expanded panel is strictly taller than the compact strip |
| PanelLayout.DefaultFontHeights | windows/runner/desktop_lyric_window.cpp:284-316 | with the 32 px default font: 243 px panel and 129 px strip with a translation, 216 px and 100 px without |
| PointerInput.LowWord | windows/runner/desktop_lyric_window.cpp:652 | `LOWORD` yields an unsigned 16-bit value |
| PointerInput.HighWord | windows/runner/desktop_lyric_window.cpp:653 | `HIWORD` yields an unsigned 16-bit value |
| PointerInput.SignedWord | windows/runner/desktop_lyric_window.cpp:652-653 | reading a word as a signed short gives a value in [−32768, 32768) that agrees with the word modulo 2^16 |
| PointerInput.DecodeRoundTrip | windows/runner/desktop_lyric_window.cpp:652-653 | signed decoding recovers every point the system can pack into `lparam`, including negative coordinates |
| PointerInput.PointFromLParamAsWritten | windows/runner/desktop_lyric_window.cpp:652-653 | `{LOWORD(lparam), HIWORD(lparam)}`: both coordinates are read unsigned, so they are never negative |
| PointerInput.PointFromLParam | windows/runner/desktop_lyric_window.cpp:652-653 | the corrected signed decoding: both coordinates lie in the 16-bit signed range and agree with their words modulo 2^16 |
| PointerInput.DragTarget | windows/runner/desktop_lyric_window.cpp:655-657 | the new window left is the old left plus the pointer's move from the anchor, so the press point lands on the pointer's screen position |
| PointerInput.DecodersAgreeOnNonNegative | windows/runner/desktop_lyric_window.cpp:621 | for the non-negative coordinates of a press inside the window, the unsigned and the signed decoding both give back the point |
| PointerInput.AsWrittenDecodingWrapsNegative | windows/runner/desktop_lyric_window.cpp:652-653 | as written, a pointer at x = −5 decodes as 65531; signed decoding gives −5 |
| PointerInput.DragJumpAsWritten | windows/runner/desktop_lyric_window.cpp:647-658 | as written, dragging the window at x = 100 with anchor 10 to client x = −5 moves it to 65621 instead of 85 |
| PointerInput.DragKeepsAnchorUnderPointer | windows/runner/desktop_lyric_window.cpp:647-658 | with signed decoding, a drag always places the window so that the press point stays under the pointer |
| DesktopLyric.CurrentHeight | windows/runner/desktop_lyric_window.cpp:303-316 | the painted height is the panel height while the panel is open, and the compact height otherwise; it is never below the bare compact strip, and the open panel is always taller than the compact window |
| DesktopLyric.PaintContent | windows/runner/desktop_lyric_window.cpp:353-608 | drawing content never resizes the window, and it re-records the button rectangles only while the panel is open |
| DesktopLyric.PaintContentRules | windows/runner/desktop_lyric_window.cpp:366-607 | the open panel only re-records the eight rectangles; an empty lyric draws nothing; the translation's scroll state changes only when a translation is shown; a compact repaint records the frame tick and arms the scroll timer exactly when a line is still pausing or short of its end |
| DesktopLyric.Paint | windows/runner/desktop_lyric_window.cpp:300-351 | without a window nothing changes; with one, the window takes the current height |
| DesktopLyric.PaintIgnoresHeight | windows/runner/desktop_lyric_window.cpp:682-704 | a repaint of an existing window does not depend on the height before it, so resizing just before a repaint has no effect |
| DesktopLyric.PaintKeepsScrollSane | windows/runner/desktop_lyric_window.cpp:353-608 | a repaint keeps both scroll states sane, never moves a line backwards or past its end, and leaves both lines and the frame tick alone while the panel is open |
| DesktopLyric.PanelTimeCountsOnCollapse | windows/runner/desktop_lyric_window.cpp:366-370 | while the panel is open the frame tick is not updated, so the first compact repaint afterwards advances the lyric by the whole time the panel was open |
| DesktopLyric.DesktopLyricWindow.constructor | windows/runner/desktop_lyric_window.cpp:39-82 | the initial state: no window, 32 px font, translation shown, draggable, 3000 ms duration, cleared scroll states and button rectangles, no timers |
| DesktopLyric.DesktopLyricWindow.Create | windows/runner/desktop_lyric_window.cpp:89-142 | a second call succeeds and keeps the window; a refusal from the system fails and changes nothing; otherwise the 100 px strip appears centred horizontally, 100 px above the bottom of the screen |
| DesktopLyric.DesktopLyricWindow.Destroy | windows/runner/desktop_lyric_window.cpp:144-154 | the window is gone and hidden, and so are both of its timers |
| DesktopLyric.DesktopLyricWindow.UpdateWindow | windows/runner/desktop_lyric_window.cpp:300-351 | one repaint is exactly `Paint` of the previous repaint state and the current configuration, and keeps the window invariant |
| DesktopLyric.DesktopLyricWindow.DrawLyric | windows/runner/desktop_lyric_window.cpp:353-375 | the content of a repaint is exactly `PaintContent`: the panel, nothing for an empty lyric, or the scrolling lines |
| DesktopLyric.DesktopLyricWindow.DrawScrollingLines | windows/runner/desktop_lyric_window.cpp:376-607 | the lyric advances one `ScrollFrame`; the translation does too when it is shown and is left alone otherwise; the frame tick becomes `now`; the scroll timer is armed exactly when a line is still pausing or short of its end |
| DesktopLyric.DesktopLyricWindow.DrawControlPanel | windows/runner/desktop_lyric_window.cpp:804-1129 | the eight rectangles recorded during the panel paint are exactly `Layout` of the font size, lyric and translation |
| DesktopLyric.DesktopLyricWindow.HandleButtonClick | windows/runner/desktop_lyric_window.cpp:753-780 | the result is true exactly when some rectangle contains the press, whether or not a callback is registered; only the first matching button's action is dispatched, and only to a registered callback |
| DesktopLyric.DesktopLyricWindow.SetLyricText | windows/runner/desktop_lyric_window.cpp:173-186 | the same text keeps the lyric's scroll state; a different text resets it to offset 0, not scrolling, width 0, speed 0, pause starting now; a visible window then repaints |
| DesktopLyric.DesktopLyricWindow.SetTranslationText | windows/runner/desktop_lyric_window.cpp:782-795 | the same rule for the translation line and its own scroll state |
| DesktopLyric.DesktopLyricWindow.SetLyricDuration | windows/runner/desktop_lyric_window.cpp:188-190 | a positive duration is stored as given, and zero is replaced by 3000 ms |
| DesktopLyric.DesktopLyricWindow.SetFontSize | windows/runner/desktop_lyric_window.cpp:208-225 | the size is stored, and a visible window repaints; otherwise nothing else changes |
| DesktopLyric.DesktopLyricWindow.SetShowTranslation | windows/runner/desktop_lyric_window.cpp:797-802 | the flag is stored, and a visible window repaints; otherwise nothing else changes |
| DesktopLyric.DesktopLyricWindow.SetPlayingState | windows/runner/desktop_lyric_window.cpp:277-282 | the flag is stored; only a visible window with the panel open repaints |
| DesktopLyric.DesktopLyricWindow.SetDraggable | windows/runner/desktop_lyric_window.cpp:248-250 | the flag is stored |
| DesktopLyric.DesktopLyricWindow.SetPlaybackControlCallback | windows/runner/desktop_lyric_window.cpp:273-275 | the callback becomes registered or cleared |
| DesktopLyric.DesktopLyricWindow.Show | windows/runner/desktop_lyric_window.cpp:156-161 | an existing window repaints, then becomes visible; without a window nothing changes |
| DesktopLyric.DesktopLyricWindow.Hide | windows/runner/desktop_lyric_window.cpp:163-167 | an existing window becomes hidden |
| DesktopLyric.DesktopLyricWindow.SetPosition | windows/runner/desktop_lyric_window.cpp:192-197 | an existing window moves to the given corner; otherwise nothing moves |
| DesktopLyric.DesktopLyricWindow.GetPosition | windows/runner/desktop_lyric_window.cpp:199-206 | the top-left corner is reported exactly when the window exists |
| DesktopLyric.DesktopLyricWindow.OnLButtonDown | windows/runner/desktop_lyric_window.cpp:620-637 | buttons are tested only while the panel is open; a drag anchored at the press starts exactly when the window is draggable and no button consumed the press |
| DesktopLyric.DesktopLyricWindow.OnLButtonUp | windows/runner/desktop_lyric_window.cpp:639-645 | releasing the button ends any drag |
| DesktopLyric.DesktopLyricWindow.OnMouseMove | windows/runner/desktop_lyric_window.cpp:647-680 | during a drag the window moves by the pointer's offset from the anchor; only the first move while not hovered records the hover time and arms the dwell timer; the pointer is hovered afterwards |
| DesktopLyric.DesktopLyricWindow.OnMouseLeave | windows/runner/desktop_lyric_window.cpp:682-704 | leaving clears hovered and panel-open, cancels the dwell timer and repaints the compact strip |
| DesktopLyric.DesktopLyricWindow.OnTimer | windows/runner/desktop_lyric_window.cpp:706-736 | the dwell timer opens the panel only while hovered and not yet open; the scroll timer repaints only on the compact strip with a scrolling line and stops itself otherwise; any other event changes nothing |
| DesktopLyric.DesktopLyricWindow.ExpandPanel | windows/runner/desktop_lyric_window.cpp:707-727 | the panel opens, the dwell timer stops and the window repaints at the panel height |
| LyricTimeline.InsertByTime | android/app/src/main/kotlin/com/cyrene/music/FloatingLyricPlugin.kt:409 | inserting into time-sorted lines adds one line and keeps them sorted |
| LyricTimeline.InsertByTimePermutation | android/app/src/main/kotlin/com/cyrene/music/FloatingLyricPlugin.kt:409 | insertion adds exactly the new line and loses none |
| LyricTimeline.SortByTime | android/app/src/main/kotlin/com/cyrene/music/FloatingLyricPlugin.kt:409 | the stored lines are ordered by non-decreasing time, and there are as many as were received |
| LyricTimeline.SortByTimePermutation | android/app/src/main/kotlin/com/cyrene/music/FloatingLyricPlugin.kt:409 | the stored lines are a permutation of the received ones |
| LyricTimeline.AtTime | android/app/src/main/kotlin/com/cyrene/music/FloatingLyricPlugin.kt:409 | the filter keeps only lines at the given time, and never more lines than there are |
| LyricTimeline.AtTimeAppend | android/app/src/main/kotlin/com/cyrene/music/FloatingLyricPlugin.kt:409 | filtering by time distributes over concatenation |
| LyricTimeline.AtTimeSingle | android/app/src/main/kotlin/com/cyrene/music/FloatingLyricPlugin.kt:409 | a single line is kept exactly when it is at the time |
| LyricTimeline.AtTimeNoneLater | android/app/src/main/kotlin/com/cyrene/music/FloatingLyricPlugin.kt:409 | lines all later than the time contribute nothing |
| LyricTimeline.InsertAtTimeFront | android/app/src/main/kotlin/com/cyrene/music/FloatingLyricPlugin.kt:409 | a line placed before strictly later lines comes after them among lines at its own time |
| LyricTimeline.InsertAtTime | android/app/src/main/kotlin/com/cyrene/music/FloatingLyricPlugin.kt:409 | an inserted line comes after every line already present with the same time |
| LyricTimeline.SortByTimeStable | android/app/src/main/kotlin/com/cyrene/music/FloatingLyricPlugin.kt:409 | the sort is stable: lines sharing a time keep their order of arrival |
| LyricTimeline.SortByTimeKeepsSorted | android/app/src/main/kotlin/com/cyrene/music/FloatingLyricPlugin.kt:409 | lines that arrive in order are stored unchanged |
| LyricTimeline.InsertAfterAll | android/app/src/main/kotlin/com/cyrene/music/FloatingLyricPlugin.kt:409 | a line no earlier than all others goes at the end |
| LyricTimeline.LeadingAtOrBefore | android/app/src/main/kotlin/com/cyrene/music/FloatingLyricPlugin.kt:524-531 | the count covers exactly the leading lines that start at or before the position: all counted ones do, and the next one does not |
| LyricTimeline.LineIndexAt | android/app/src/main/kotlin/com/cyrene/music/FloatingLyricPlugin.kt:524-531 | the index lies in [−1, size); every line up to it starts at or before the position; the line after it starts later |
| LyricTimeline.LineIndexUnique | android/app/src/main/kotlin/com/cyrene/music/FloatingLyricPlugin.kt:524-531 | those two properties determine the index |
| LyricTimeline.LineIndexIsLast | android/app/src/main/kotlin/com/cyrene/music/FloatingLyricPlugin.kt:524-531 | on sorted lines the index is the largest one whose line starts at or before the position, or −1 when the first line is later |
| LyricTimeline.LeadingMonotone | android/app/src/main/kotlin/com/cyrene/music/FloatingLyricPlugin.kt:524-531 | a later position never counts fewer leading lines |
| LyricTimeline.LineIndexMonotone | android/app/src/main/kotlin/com/cyrene/music/FloatingLyricPlugin.kt:524-531 | a later position never shows an earlier line |
| LyricTimeline.ScanLineIndex | android/app/src/main/kotlin/com/cyrene/music/FloatingLyricPlugin.kt:523-531 | the loop that stops at the first later line computes exactly `LineIndexAt` |
| LyricTimeline.TrimStart | android/app/src/main/kotlin/com/cyrene/music/FloatingLyricPlugin.kt:290 | only leading whitespace is removed, and what remains is a suffix that starts with a non-blank |
| LyricTimeline.TrimEnd | android/app/src/main/kotlin/com/cyrene/music/FloatingLyricPlugin.kt:290 | only trailing whitespace is removed, and what remains is a prefix that ends with a non-blank |
| LyricTimeline.TrimEmptyIffBlank | android/app/src/main/kotlin/com/cyrene/music/FloatingLyricPlugin.kt:290 | `trim()` leaves nothing exactly when every character is whitespace |
| LyricTimeline.Trim | android/app/src/main/kotlin/com/cyrene/music/FloatingLyricPlugin.kt:290 | `String.trim()`: the result is no longer than the text, and a non-empty result begins and ends with a non-blank character |
| LyricTimeline.Shown | android/app/src/main/kotlin/com/cyrene/music/FloatingLyricPlugin.kt:287-293 | what `updateLyricText` shows is the text itself or "♪" |
| LyricTimeline.ShownNeverBlank | android/app/src/main/kotlin/com/cyrene/music/FloatingLyricPlugin.kt:287-293 | the view never shows text that trims to nothing |
| LyricTimeline.ShownRule | android/app/src/main/kotlin/com/cyrene/music/FloatingLyricPlugin.kt:287-293 | whitespace-only text shows "♪", and any text with a non-blank character shows unchanged |
| LyricTimeline.PlaceholderShown | android/app/src/main/kotlin/com/cyrene/music/FloatingLyricPlugin.kt:287-293 | "♪" is itself shown as "♪" |
| LyricTimeline.LineDisplay | android/app/src/main/kotlin/com/cyrene/music/FloatingLyricPlugin.kt:539-543 | the line's text always leads; the display is the text alone exactly when there is no non-empty translation, and otherwise what follows the text is a newline and then exactly the translation |
| LyricTimeline.IndexDisplay | android/app/src/main/kotlin/com/cyrene/music/FloatingLyricPlugin.kt:537-550 | a valid index shows that line's display, which starts with the line's text and, when the line has a non-empty translation, ends with a newline and that translation; any other index shows "♪" |
| LyricTimeline.LineDisplayShown | android/app/src/main/kotlin/com/cyrene/music/FloatingLyricPlugin.kt:287-293 | a composed line with a non-blank character in its text or in its translation passes the blank check unchanged, so the view shows it exactly as composed |
| LyricTimeline.Refresh | android/app/src/main/kotlin/com/cyrene/music/FloatingLyricPlugin.kt:514-552 | the recorded index becomes the line index at the position; an unchanged index changes nothing; a changed one puts that index's display on a shown view; a view not on screen keeps its text |
| LyricTimeline.RefreshIdempotent | android/app/src/main/kotlin/com/cyrene/music/FloatingLyricPlugin.kt:534 | refreshing twice at the same position is the same as refreshing once |
| LyricTimeline.RefreshEmpty | android/app/src/main/kotlin/com/cyrene/music/FloatingLyricPlugin.kt:515-521 | with no lines the recorded index is −1 whatever the position, and a change to it shows "♪" |
| LyricTimeline.CoerceIn | android/app/src/main/kotlin/com/cyrene/music/FloatingLyricPlugin.kt:346 | the result lies in [lo, hi]; it is the input when the input is in range, and the nearer bound otherwise |
| FloatingLyric.FloatingLyricController.constructor | android/app/src/main/kotlin/com/cyrene/music/FloatingLyricPlugin.kt:29-54 | the initial state: no context or view, draggable, opaque, no lines, position and sync anchor 0, paused, index −1 |
| FloatingLyric.FloatingLyricController.Attach | android/app/src/main/kotlin/com/cyrene/music/FloatingLyricPlugin.kt:63-67 | the plugin holds a context |
| FloatingLyric.FloatingLyricController.Detach | android/app/src/main/kotlin/com/cyrene/music/FloatingLyricPlugin.kt:69-74 | the window is hidden, the update loop stopped, and then the context dropped |
| FloatingLyric.FloatingLyricController.ShowFloatingWindow | android/app/src/main/kotlin/com/cyrene/music/FloatingLyricPlugin.kt:201-266 | the result is true exactly with a context and the overlay permission; an already shown view is not rebuilt; a new view shows "♪ 暂无歌词" at (100, 200), with a drag listener exactly when draggable, whose press and touch anchors start at zero; in every other case the anchors are kept |
| FloatingLyric.FloatingLyricController.HideFloatingWindow | android/app/src/main/kotlin/com/cyrene/music/FloatingLyricPlugin.kt:269-284 | the update loop stops, and the view and its listener are gone |
| FloatingLyric.FloatingLyricController.UpdateLyricText | android/app/src/main/kotlin/com/cyrene/music/FloatingLyricPlugin.kt:287-293 | a shown view displays the text, or "♪" for blank text; without a view nothing changes |
| FloatingLyric.FloatingLyricController.SetPosition | android/app/src/main/kotlin/com/cyrene/music/FloatingLyricPlugin.kt:296-308 | a shown view moves to the given position; otherwise nothing moves |
| FloatingLyric.FloatingLyricController.SetupDragListener | android/app/src/main/kotlin/com/cyrene/music/FloatingLyricPlugin.kt:351-357 | a new listener is installed with its anchors at zero |
| FloatingLyric.FloatingLyricController.SetDraggable | android/app/src/main/kotlin/com/cyrene/music/FloatingLyricPlugin.kt:335-342 | the flag is stored, and the view has a listener exactly when it is draggable and shown; a listener installed here starts with its press and touch anchors at zero, and otherwise the anchors are kept |
| FloatingLyric.FloatingLyricController.SetAlpha | android/app/src/main/kotlin/com/cyrene/music/FloatingLyricPlugin.kt:345-348 | the stored alpha always lies in [0, 1]; it equals the input when the input is in range, and the nearer bound otherwise |
| FloatingLyric.FloatingLyricController.OnTouch | android/app/src/main/kotlin/com/cyrene/music/FloatingLyricPlugin.kt:358-389 | a press records the view position and the raw touch point; a move sets x = initialX + trunc(rawX − initialTouchX), and likewise y; down, move and up are consumed and any other action is not |
| FloatingLyric.FloatingLyricController.StartLyricUpdateLoop | android/app/src/main/kotlin/com/cyrene/music/FloatingLyricPlugin.kt:460-494 | with a context, the callback is installed, and a clock that was never anchored is anchored at the current position now |
| FloatingLyric.FloatingLyricController.StopLyricUpdateLoop | android/app/src/main/kotlin/com/cyrene/music/FloatingLyricPlugin.kt:497-511 | with a context, the callback is removed |
| FloatingLyric.FloatingLyricController.UpdateCurrentLyric | android/app/src/main/kotlin/com/cyrene/music/FloatingLyricPlugin.kt:514-552 | the recorded index and the displayed text change exactly as `Refresh` says: only when the line index at the position differs from the recorded one |
| FloatingLyric.FloatingLyricController.SetLyricsData | android/app/src/main/kotlin/com/cyrene/music/FloatingLyricPlugin.kt:395-425 | undecodable data changes nothing; decoded lines are stored sorted by time, the index is reset to −1 and "♪" is shown, and a shown view starts the update loop |
| FloatingLyric.FloatingLyricController.UpdatePlaybackPosition | android/app/src/main/kotlin/com/cyrene/music/FloatingLyricPlugin.kt:428-440 | the sync anchor becomes (now, position), as does the current position; a shown view refreshes its line at once |
| FloatingLyric.FloatingLyricController.SetPlayingState | android/app/src/main/kotlin/com/cyrene/music/FloatingLyricPlugin.kt:443-457 | playing on a shown view starts the loop and, on a change from paused, re-anchors the clock at the current position; a first start with a live context and no sync yet (`lastSyncTime == 0`) also anchors the clock there; anything else stops the loop |
| FloatingLyric.FloatingLyricController.OnUpdateTick | android/app/src/main/kotlin/com/cyrene/music/FloatingLyricPlugin.kt:470-480 | only while playing on a shown view, the position becomes the synced one plus the time since the sync, and the line is refreshed; otherwise nothing changes |

## Left out

- All GDI+ and Win32 drawing is left out: brushes, pens, paths, fonts, the layered-window bitmap, the song title, artist and play-state icons. The model keeps only the rectangle coordinates the panel records and the scroll and timer state a repaint changes.
- Text colour, stroke colour, stroke width, song info and mouse transparency, on both platforms, are left out. They only set a drawing attribute or a window style and repaint.
- The font handles and the shutdown of the graphics library in the destructor are left out, as is the process-wide GDI+ start-up and shutdown. They are library state.
- Win32 calls are left out: window-class registration, `SetCapture`, `ReleaseCapture`, `TrackMouseEvent`, the window back-pointer, `PostQuitMessage` and debug output. The window position is the pair of fields `posX` and `posY`, and a timer is a flag.
- `desktop_lyric_window.h` is not part of this model. The pause before a line scrolls is the constructor parameter `scrollPauseMs`, assumed positive. The hover delay only sets when the dwell timer fires, so it does not appear.
- The graphics library's `MeasureString` is the parameter `measureText`.
- `GetTickCount` and its 32-bit wrap-around are not modelled. `now` is a parameter that never goes backwards, so the unsigned subtractions of ticks are plain differences.
- Single-precision floating point is not modelled. Scroll arithmetic is over reals, and `static_cast<int>(fs * 0.6f)` and `0.7f` are the exact product truncated toward zero.
- ScrollAnimator.ScrollFrame: does not capture float rounding of offsets or speeds, because the arithmetic is over reals.
- The resize that the mouse-leave handler and the dwell timer perform just before their repaint is not a separate step. `PaintIgnoresHeight` shows that it is overwritten by the repaint.
- DesktopLyric.DesktopLyricWindow.HandleButtonClick and DesktopLyric.DesktopLyricWindow.OnLButtonDown are stated with `ChainHit`, the if-else chain itself. `HitTestIsChain` proves it equal to the first-match `HitTest`, and `HitTestFirstMatch` characterises that.
- DesktopLyric.DesktopLyricWindow.OnMouseMove and DesktopLyric.DesktopLyricWindow.OnLButtonDown read `lparam` with the corrected signed decoding `PointFromLParam`, not with the unsigned `LOWORD`/`HIWORD` of the source. The as-written behaviour, where a drag to a negative client coordinate makes the window jump, is `PointerInput.DragJumpAsWritten` (see "## Findings").
- DesktopLyric.DesktopLyricWindow.OnMouseLeave, OnTimer and ExpandPanel require an existing window: the window procedure only runs for a created window.
- The exchange with the Flutter host is left out: the method-channel dispatch, `requestOverlayPermission`, the settings intent and the SDK-version checks. The overlay permission is the parameter `permitted`.
- The Android view system is left out. `WindowManager.addView`, `removeView` and `updateViewLayout` become the fields above, and `view.post` runs at once. The exception paths of adding the view and of updating its layout are not modelled.
- The foreground service is left out: starting and stopping it, and its timer. `updateLoopActive` says whether its callback is installed, and `OnUpdateTick(now)` is one run of that callback. `System.currentTimeMillis` is the parameter `now`.
- FloatingLyric.FloatingLyricController.SetLyricsData takes the already-decoded lines. JSON parsing is not modelled, and `None` stands for the parse failure the source catches.
- LyricTimeline.SortByTime is `sortedBy`, modelled as a stable insertion sort. `TimSort` is not modelled, but its result is the same: sorted, a permutation and stable.
- LyricTimeline.IsWhitespace lists the code points Kotlin's `isWhitespace` accepts on the JVM. Unicode tables are not modelled.
- Kotlin `Long` overflow of positions and times is not modelled, and neither is `Float.toInt()` saturation. `SetAlpha` and `CoerceIn` take reals, so NaN is not modelled.
- FloatingLyric.FloatingLyricController.Valid does not bound the recorded index by the number of lines. Refreshing handles any index, as the source does.
- FloatingLyric.FloatingLyricController.OnTouch requires an installed listener, because the view calls it only then.
- `CustomMediaNotificationService.kt`, `AndroidMediaNotificationPlugin.kt` and `build.gradle.kts` are not part of this model. They hold notification and service plumbing and build configuration.

## Findings

| source | as written | input that shows it | evidently intended | confidence | as-written member | corrected member |
|---|---|---|---|---|---|---|
| windows/runner/desktop_lyric_window.cpp:647-658 | the mouse coordinates are read with `LOWORD`/`HIWORD`, which are unsigned, so a negative client coordinate (the pointer left of or above the window during a captured drag) decodes as 65536 − k | window at x = 100, anchor x = 10, pointer dragged to client x = −5: the window jumps to 65621 instead of 85 | signed decoding (`GET_X_LPARAM`, `GET_Y_LPARAM`), which keeps the press point under the pointer | not executed | PointerInput.DragJumpAsWritten | PointerInput.DragKeepsAnchorUnderPointer |
