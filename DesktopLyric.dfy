/** The Windows desktop lyric window: a borderless always-on-top strip that
    shows the current lyric (and its translation), scrolls lines too wide for
    it, and after the pointer dwells on it expands into a control panel with
    eight buttons. */
module DesktopLyric {
  import opened Wrappers
  import opened Numeric
  import opened ScrollAnimator
  import opened PanelLayout
  import opened PointerInput

  const DefaultFontSize: int := 32
  const DefaultDurationMs: nat := 3000
  /** Distance of the strip's default position from the bottom of the screen. */
  const BottomMargin: int := 100

  /** Everything a repaint reads but does not change. */
  datatype PaintConfig = PaintConfig(
    created: bool, showControls: bool, lyricNonEmpty: bool, hasTranslation: bool,
    fontSize: int, lyricWidth: real, transWidth: real, durationMs: nat, pauseMs: nat)

  /** Everything a repaint may change. */
  datatype PaintState = PaintState(
    lyric: ScrollState, trans: ScrollState, lastScrollTime: nat,
    scrollTimer: bool, buttons: ButtonRects, height: int)

  /** Height the window is painted at. */
  function CurrentHeight(c: PaintConfig): (h: int)
    ensures c.showControls ==> h == PanelHeight(c.fontSize, c.hasTranslation)
    ensures !c.showControls ==> h == CompactHeight(c.fontSize, c.hasTranslation)
    // never below the bare strip, and the open panel is the taller of the two
    ensures c.fontSize >= 0 ==> h >= CompactBaseHeight
    ensures c.fontSize >= 0 && c.showControls ==> h > CompactHeight(c.fontSize, c.hasTranslation)
  {
    if c.showControls then PanelHeight(c.fontSize, c.hasTranslation)
    else CompactHeight(c.fontSize, c.hasTranslation)
  }

  /** `DrawLyric` on the model state: the expanded panel only re-records the
      button rectangles; an empty lyric draws nothing; otherwise both lines
      advance one scroll frame (the translation only when it is shown), the
      frame time is recorded and the refresh timer is armed exactly when a
      line is still pausing or short of its end. */
  function PaintContent(p: PaintState, c: PaintConfig, now: nat): (q: PaintState)
    ensures q.height == p.height
    ensures !c.showControls ==> q.buttons == p.buttons
  {
    if c.showControls then
      p.(buttons := Layout(WindowWidth, c.fontSize, c.lyricNonEmpty, c.hasTranslation))
    else if !c.lyricNonEmpty then
      p
    else
      var l := ScrollFrame(p.lyric, c.lyricWidth, WindowWidth, c.durationMs, c.pauseMs, now, p.lastScrollTime);
      var t := if c.hasTranslation
               then ScrollFrame(p.trans, c.transWidth, WindowWidth, c.durationMs, c.pauseMs, now, p.lastScrollTime)
               else p.trans;
      var still := StillScrolling(l, WindowWidth) || StillScrolling(t, WindowWidth);
      p.(lyric := l, trans := t, lastScrollTime := now, scrollTimer := still && c.created)
  }

  /** The cases of a repaint's content. */
  lemma PaintContentRules(p: PaintState, c: PaintConfig, now: nat)
    ensures var q := PaintContent(p, c, now);
            (c.showControls ==> q == p.(buttons := Layout(WindowWidth, c.fontSize, c.lyricNonEmpty, c.hasTranslation))) &&
            (!c.showControls && !c.lyricNonEmpty ==> q == p) &&
            (!c.hasTranslation ==> q.trans == p.trans) &&
            (!c.showControls && c.lyricNonEmpty ==>
               q.lastScrollTime == now &&
               (q.scrollTimer <==> c.created && (StillScrolling(q.lyric, WindowWidth) || StillScrolling(q.trans, WindowWidth))))
  {
  }

  /** `UpdateWindow` on the model state: nothing without a window; otherwise
      resize to the current height and paint. */
  function Paint(p: PaintState, c: PaintConfig, now: nat): (q: PaintState)
    ensures !c.created ==> q == p
    ensures c.created ==> q.height == CurrentHeight(c)
  {
    if !c.created then p
    else PaintContent(p.(height := CurrentHeight(c)), c, now)
  }

  /** A repaint of an existing window recomputes the height, whatever it was;
      so the resize that the pointer-leave and dwell handlers do just before
      repainting leaves no trace, and the model goes straight to the repaint. */
  lemma PaintIgnoresHeight(p: PaintState, c: PaintConfig, now: nat, h: int)
    requires c.created
    ensures Paint(p.(height := h), c, now) == Paint(p, c, now)
  {
  }

  /** A repaint never moves a scroll line backwards or past its end, and keeps
      what it does not touch while the panel is open. */
  lemma PaintKeepsScrollSane(p: PaintState, c: PaintConfig, now: nat)
    requires Sane(p.lyric) && Sane(p.trans) && now >= p.lastScrollTime
    requires p.lyric.offset <= ScrollLimit(c.lyricWidth, WindowWidth)
    ensures var q := Paint(p, c, now);
            Sane(q.lyric) && Sane(q.trans) &&
            p.lyric.offset <= q.lyric.offset && p.trans.offset <= q.trans.offset
    ensures var q := Paint(p, c, now);
            c.created && c.showControls ==> q.lyric == p.lyric && q.trans == p.trans && q.lastScrollTime == p.lastScrollTime
    ensures Paint(p, c, now).lyric.offset <= ScrollLimit(c.lyricWidth, WindowWidth)
  {
  }

  /** While the panel is open the scroll clock stands still, so the first
      compact repaint after it closes advances the lines by the whole time
      the panel was open. */
  lemma PanelTimeCountsOnCollapse(p: PaintState, c: PaintConfig, later: nat)
    requires c.created && c.showControls && later >= p.lastScrollTime
    ensures Paint(p, c, later).lastScrollTime == p.lastScrollTime
    ensures var collapsed := c.(showControls := false);
            c.lyricNonEmpty ==>
              Paint(Paint(p, c, later), collapsed, later).lyric ==
              ScrollFrame(p.lyric, c.lyricWidth, WindowWidth, c.durationMs, c.pauseMs, later, p.lastScrollTime)
  {
  }

  /** The desktop lyric window. `measureText` stands for the text measurement
      of the graphics library (text, pixel size, bold) and `scrollPauseMs`
      for the pause before a wide line starts scrolling. */
  class DesktopLyricWindow {
    const scrollPauseMs: nat
    const measureText: (string, real, bool) -> real

    var created: bool
    var shown: bool
    var posX: int
    var posY: int
    var windowHeight: int
    var lyricText: string
    var translationText: string
    var fontSize: int
    var showTranslation: bool
    var isPlaying: bool
    var isDraggable: bool
    var isDragging: bool
    var dragPoint: Point
    var isHovered: bool
    var showControls: bool
    var hoverStartTime: nat
    var lastScrollTime: nat
    var lyricDurationMs: nat
    var lyricScroll: ScrollState
    var transScroll: ScrollState
    var callbackSet: bool
    /** The action names passed to the playback callback so far. */
    var dispatched: seq<string>
    /** The eight button rectangles recorded by the last panel paint. */
    var buttons: ButtonRects
    var hoverTimerArmed: bool
    var scrollTimerArmed: bool

    ghost predicate Valid()
      reads this`lyricScroll, this`transScroll, this`showControls, this`isHovered, this`hoverTimerArmed
    {
      Sane(lyricScroll) && Sane(transScroll) && scrollPauseMs > 0 &&
      (showControls ==> isHovered) &&
      (hoverTimerArmed ==> isHovered && !showControls)
    }

    /** The tick count only moves forward. */
    predicate ClockAt(now: nat)
      reads this`lastScrollTime, this`lyricScroll, this`transScroll
    {
      now >= lastScrollTime && now >= lyricScroll.pauseStart && now >= transScroll.pauseStart
    }

    predicate IsVisible()
      reads this`created, this`shown
    {
      created && shown
    }

    predicate HasTranslation()
      reads this`showTranslation, this`translationText
    {
      showTranslation && translationText != []
    }

    function Config(): PaintConfig
      reads this`created, this`showControls, this`lyricText, this`showTranslation
      reads this`translationText, this`fontSize, this`lyricDurationMs
    {
      PaintConfig(created, showControls, lyricText != [], HasTranslation(), fontSize,
                  measureText(lyricText, fontSize as real, true),
                  measureText(translationText, fontSize as real * 0.6, false),
                  lyricDurationMs, scrollPauseMs)
    }

    function Snapshot(): PaintState
      reads this`lyricScroll, this`transScroll, this`lastScrollTime, this`scrollTimerArmed
      reads this`buttons, this`windowHeight
    {
      PaintState(lyricScroll, transScroll, lastScrollTime, scrollTimerArmed, buttons, windowHeight)
    }

    constructor (pauseMs: nat, measure: (string, real, bool) -> real)
      requires pauseMs > 0
      ensures Valid()
      ensures scrollPauseMs == pauseMs && measureText == measure
      ensures !created && !shown && windowHeight == CompactBaseHeight
      ensures lyricText == [] && translationText == []
      ensures fontSize == DefaultFontSize && showTranslation && !isPlaying
      ensures isDraggable && !isDragging && !isHovered && !showControls && hoverStartTime == 0
      ensures lastScrollTime == 0 && lyricDurationMs == DefaultDurationMs
      ensures !callbackSet && dispatched == []
      ensures lyricScroll == transScroll == ScrollState(0.0, false, 0.0, 0, 0.0)
      ensures var zero := Rect(0, 0, 0, 0);
              buttons == ButtonRects(zero, zero, zero, zero, zero, zero, zero, zero)
      ensures !hoverTimerArmed && !scrollTimerArmed
    {
      scrollPauseMs := pauseMs;
      measureText := measure;
      created, shown := false, false;
      posX, posY, windowHeight := 0, 0, CompactBaseHeight;
      lyricText, translationText := [], [];
      fontSize, showTranslation, isPlaying := DefaultFontSize, true, false;
      isDraggable, isDragging, dragPoint := true, false, Point(0, 0);
      isHovered, showControls, hoverStartTime := false, false, 0;
      lastScrollTime, lyricDurationMs := 0, DefaultDurationMs;
      lyricScroll := ScrollState(0.0, false, 0.0, 0, 0.0);
      transScroll := ScrollState(0.0, false, 0.0, 0, 0.0);
      callbackSet, dispatched := false, [];
      var zero := Rect(0, 0, 0, 0);
      buttons := ButtonRects(zero, zero, zero, zero, zero, zero, zero, zero);
      hoverTimerArmed, scrollTimerArmed := false, false;
    }

    /** Create the window centred at the bottom of a `screenWidth` x
        `screenHeight` screen. `systemOk` is whether the system accepted the
        window class and the window. A second call keeps the existing window. */
    method Create(systemOk: bool, screenWidth: int, screenHeight: int) returns (ok: bool)
      requires Valid()
      modifies this`created, this`posX, this`posY, this`windowHeight
      ensures Valid()
      ensures old(created) ==> ok && created && posX == old(posX) && posY == old(posY) && windowHeight == old(windowHeight)
      ensures !old(created) && !systemOk ==> !ok && !created && posX == old(posX) && posY == old(posY) && windowHeight == old(windowHeight)
      ensures !old(created) && systemOk ==>
                ok && created && windowHeight == CompactBaseHeight &&
                posX == DivTrunc(screenWidth - WindowWidth, 2) &&
                posY == screenHeight - CompactBaseHeight - BottomMargin
    {
      if created {
        return true;
      }
      if !systemOk {
        return false;
      }
      posX := DivTrunc(screenWidth - WindowWidth, 2);
      posY := screenHeight - CompactBaseHeight - BottomMargin;
      windowHeight := CompactBaseHeight;
      created := true;
      ok := true;
    }

    /** Destroying the window also stops both of its timers. */
    method Destroy()
      requires Valid()
      modifies this`created, this`shown, this`hoverTimerArmed, this`scrollTimerArmed
      ensures Valid()
      ensures old(created) ==> !created && !shown && !hoverTimerArmed && !scrollTimerArmed
      ensures !old(created) ==> created == old(created) && shown == old(shown) &&
                                hoverTimerArmed == old(hoverTimerArmed) && scrollTimerArmed == old(scrollTimerArmed)
    {
      if created {
        created, shown := false, false;
        hoverTimerArmed, scrollTimerArmed := false, false;
      }
    }

    /** One repaint at tick `now`. */
    method UpdateWindow(now: nat)
      requires Valid() && ClockAt(now)
      modifies this`windowHeight, this`lastScrollTime, this`scrollTimerArmed
      modifies this`buttons, this`lyricScroll, this`transScroll
      ensures Valid() && ClockAt(now)
      ensures Snapshot() == Paint(old(Snapshot()), Config(), now)
    {
      if !created {
        return;
      }
      if showControls {
        windowHeight := PanelHeight(fontSize, HasTranslation());
      } else if HasTranslation() {
        windowHeight := CompactBaseHeight + ScaleTenths(fontSize, 6) + 10;
      } else {
        windowHeight := CompactBaseHeight;
      }
      DrawLyric(now);
    }

    /** The content of a repaint: the panel, or the compact strip with its
        scrolling lines. */
    method DrawLyric(now: nat)
      requires Valid() && ClockAt(now)
      modifies this`lastScrollTime, this`scrollTimerArmed, this`buttons, this`lyricScroll, this`transScroll
      ensures Valid() && ClockAt(now)
      ensures Snapshot() == PaintContent(old(Snapshot()), Config(), now)
    {
      if showControls {
        DrawControlPanel();
        return;
      }
      if lyricText == [] {
        return;
      }
      DrawScrollingLines(now);
    }

    /** Advance both lines one frame from the last frame time to `now` and
        keep the refresh timer running exactly while a line still moves. */
    method DrawScrollingLines(now: nat)
      requires Valid() && ClockAt(now) && !showControls && lyricText != []
      modifies this`lastScrollTime, this`scrollTimerArmed, this`lyricScroll, this`transScroll
      ensures Valid() && ClockAt(now)
      ensures lyricScroll == ScrollFrame(old(lyricScroll), measureText(lyricText, fontSize as real, true), WindowWidth, lyricDurationMs, scrollPauseMs, now, old(lastScrollTime))
      ensures transScroll == if HasTranslation() then ScrollFrame(old(transScroll), measureText(translationText, fontSize as real * 0.6, false), WindowWidth, lyricDurationMs, scrollPauseMs, now, old(lastScrollTime)) else old(transScroll)
      ensures lastScrollTime == now
      ensures scrollTimerArmed == ((StillScrolling(lyricScroll, WindowWidth) || StillScrolling(transScroll, WindowWidth)) && created)
    {
      var lyricWidth := measureText(lyricText, fontSize as real, true);
      var l := AdvanceLine(lyricScroll, lyricWidth, WindowWidth, lyricDurationMs, scrollPauseMs, now, lastScrollTime);
      var t := transScroll;
      if HasTranslation() {
        var transWidth := measureText(translationText, fontSize as real * 0.6, false);
        t := AdvanceLine(transScroll, transWidth, WindowWidth, lyricDurationMs, scrollPauseMs, now, lastScrollTime);
      }
      var lyricStill := StillScrolling(l, WindowWidth);
      var transStill := StillScrolling(t, WindowWidth);
      lyricScroll, transScroll, lastScrollTime := l, t, now;
      scrollTimerArmed := (lyricStill || transStill) && created && !showControls;
    }

    /** Paint the expanded panel, recording where each button was drawn. */
    method DrawControlPanel()
      modifies this`buttons
      ensures buttons == Layout(WindowWidth, fontSize, lyricText != [], HasTranslation())
    {
      var width := WindowWidth;
      var closeX := width - CloseButtonSize - 10;
      var close := Rect(closeX, 10, closeX + CloseButtonSize, 10 + CloseButtonSize);
      var lyricY := 70;
      if lyricText != [] {
        lyricY := lyricY + fontSize + 10;
      }
      if showTranslation && translationText != [] {
        lyricY := lyricY + ScaleTenths(fontSize, 7) + 5;
      }
      var buttonY := lyricY + 15;
      var centerX := DivTrunc(width, 2);
      var prevX := centerX - ButtonSpacing - Half(ButtonSize);
      var prev := Rect(prevX, buttonY, prevX + ButtonSize, buttonY + ButtonSize);
      var playX := centerX - Half(ButtonSize);
      var play := Rect(playX, buttonY, playX + ButtonSize, buttonY + ButtonSize);
      var nextX := centerX + ButtonSpacing - Half(ButtonSize);
      var next := Rect(nextX, buttonY, nextX + ButtonSize, buttonY + ButtonSize);
      var row2Y := buttonY + ButtonSize + 10;
      var fontDownX := centerX - ScaleTenths(Row2Spacing, 15) - Half(SmallButtonSize);
      var fontDown := Rect(fontDownX, row2Y, fontDownX + SmallButtonSize, row2Y + SmallButtonSize);
      var fontUpX := centerX - ScaleTenths(Row2Spacing, 5) - Half(SmallButtonSize);
      var fontUp := Rect(fontUpX, row2Y, fontUpX + SmallButtonSize, row2Y + SmallButtonSize);
      var colorX := centerX + ScaleTenths(Row2Spacing, 5) - Half(SmallButtonSize);
      var color := Rect(colorX, row2Y, colorX + SmallButtonSize, row2Y + SmallButtonSize);
      var toggleX := centerX + ScaleTenths(Row2Spacing, 15) - Half(SmallButtonSize);
      var toggle := Rect(toggleX, row2Y, toggleX + SmallButtonSize, row2Y + SmallButtonSize);
      buttons := ButtonRects(prev, play, next, fontUp, fontDown, color, toggle, close);
    }

    /** Route a press at client point `pt` to the first button that holds it
        (`HitTestIsChain`: the first in hit order); the callback, when
        registered, receives that button's action name. */
    method HandleButtonClick(pt: Point) returns (hit: bool)
      modifies this`dispatched
      ensures hit <==> ChainHit(buttons, pt).Some?
      ensures dispatched == old(dispatched) +
                (if hit && callbackSet then [ActionName(ChainHit(buttons, pt).value)] else [])
    {
      var b := buttons;
      var action: string;
      if InRect(pt, b.previous) {
        action := "previous";
      } else if InRect(pt, b.playPause) {
        action := "play_pause";
      } else if InRect(pt, b.next) {
        action := "next";
      } else if InRect(pt, b.fontSizeUp) {
        action := "font_size_up";
      } else if InRect(pt, b.fontSizeDown) {
        action := "font_size_down";
      } else if InRect(pt, b.colorPicker) {
        action := "color_picker";
      } else if InRect(pt, b.translationToggle) {
        action := "toggle_translation";
      } else if InRect(pt, b.close) {
        action := "close";
      } else {
        return false;
      }
      assert action == ActionName(ChainHit(b, pt).value);
      if callbackSet {
        dispatched := dispatched + [action];
      }
      hit := true;
    }

    /** A new lyric line resets its scroll state (pause starting at `now`);
        the same text again keeps it. A visible window repaints. */
    method SetLyricText(text: string, now: nat)
      requires Valid() && ClockAt(now)
      modifies this`lyricText
      modifies this`windowHeight, this`lastScrollTime, this`scrollTimerArmed
      modifies this`buttons, this`lyricScroll, this`transScroll
      ensures Valid() && ClockAt(now) && lyricText == text
      ensures var start := old(Snapshot()).(lyric := if text == old(lyricText) then old(lyricScroll) else ResetState(now));
              Snapshot() == if IsVisible() then Paint(start, Config(), now) else start
    {
      if lyricText != text {
        lyricScroll := ResetState(now);
      }
      lyricText := text;
      if IsVisible() {
        UpdateWindow(now);
      }
    }

    /** As `SetLyricText`, for the translation line. */
    method SetTranslationText(text: string, now: nat)
      requires Valid() && ClockAt(now)
      modifies this`translationText
      modifies this`windowHeight, this`lastScrollTime, this`scrollTimerArmed
      modifies this`buttons, this`lyricScroll, this`transScroll
      ensures Valid() && ClockAt(now) && translationText == text
      ensures var start := old(Snapshot()).(trans := if text == old(translationText) then old(transScroll) else ResetState(now));
              Snapshot() == if IsVisible() then Paint(start, Config(), now) else start
    {
      if translationText != text {
        transScroll := ResetState(now);
      }
      translationText := text;
      if IsVisible() {
        UpdateWindow(now);
      }
    }

    /** The line's display time, used to pace scrolling; zero means the default. */
    method SetLyricDuration(durationMs: nat)
      modifies this`lyricDurationMs
      ensures lyricDurationMs == if durationMs > 0 then durationMs else DefaultDurationMs
    {
      lyricDurationMs := if durationMs > 0 then durationMs else DefaultDurationMs;
    }

    method SetFontSize(size: int, now: nat)
      requires Valid() && ClockAt(now)
      modifies this`fontSize
      modifies this`windowHeight, this`lastScrollTime, this`scrollTimerArmed
      modifies this`buttons, this`lyricScroll, this`transScroll
      ensures Valid() && ClockAt(now) && fontSize == size
      ensures Snapshot() == if IsVisible() then Paint(old(Snapshot()), Config(), now) else old(Snapshot())
    {
      fontSize := size;
      if IsVisible() {
        UpdateWindow(now);
      }
    }

    method SetShowTranslation(show: bool, now: nat)
      requires Valid() && ClockAt(now)
      modifies this`showTranslation
      modifies this`windowHeight, this`lastScrollTime, this`scrollTimerArmed
      modifies this`buttons, this`lyricScroll, this`transScroll
      ensures Valid() && ClockAt(now) && showTranslation == show
      ensures Snapshot() == if IsVisible() then Paint(old(Snapshot()), Config(), now) else old(Snapshot())
    {
      showTranslation := show;
      if IsVisible() {
        UpdateWindow(now);
      }
    }

    /** Only the open panel shows the play state, so only it repaints. */
    method SetPlayingState(playing: bool, now: nat)
      requires Valid() && ClockAt(now)
      modifies this`isPlaying
      modifies this`windowHeight, this`lastScrollTime, this`scrollTimerArmed
      modifies this`buttons, this`lyricScroll, this`transScroll
      ensures Valid() && ClockAt(now) && isPlaying == playing
      ensures Snapshot() == if IsVisible() && showControls then Paint(old(Snapshot()), Config(), now) else old(Snapshot())
    {
      isPlaying := playing;
      if IsVisible() && showControls {
        UpdateWindow(now);
      }
    }

    method SetDraggable(draggable: bool)
      modifies this`isDraggable
      ensures isDraggable == draggable
    {
      isDraggable := draggable;
    }

    /** Register (`registered`) or clear the playback callback. */
    method SetPlaybackControlCallback(registered: bool)
      modifies this`callbackSet
      ensures callbackSet == registered
    {
      callbackSet := registered;
    }

    /** Show repaints first, then makes the window visible. */
    method Show(now: nat)
      requires Valid() && ClockAt(now)
      modifies this`shown
      modifies this`windowHeight, this`lastScrollTime, this`scrollTimerArmed
      modifies this`buttons, this`lyricScroll, this`transScroll
      ensures Valid() && ClockAt(now)
      ensures shown == (old(shown) || created)
      ensures Snapshot() == Paint(old(Snapshot()), Config(), now)
    {
      if created {
        UpdateWindow(now);
        shown := true;
      }
    }

    method Hide()
      modifies this`shown
      ensures shown == (old(shown) && !created)
    {
      if created {
        shown := false;
      }
    }

    method SetPosition(x: int, y: int)
      modifies this`posX, this`posY
      ensures created ==> posX == x && posY == y
      ensures !created ==> posX == old(posX) && posY == old(posY)
    {
      if created {
        posX, posY := x, y;
      }
    }

    /** The window's top-left corner; nothing without a window (the caller's
        outputs are then left as they were). */
    method GetPosition() returns (pos: Option<Point>)
      ensures created <==> pos.Some?
      ensures created ==> pos.value == Point(posX, posY)
    {
      if created {
        pos := Some(Point(posX, posY));
      } else {
        pos := None;
      }
    }

    /** Left button pressed at `lparam`: on the open panel a button consumes the
        press; otherwise a draggable window starts a drag anchored at the press. */
    method OnLButtonDown(lparam: int)
      requires Valid()
      modifies this`isDragging, this`dragPoint, this`dispatched
      ensures Valid()
      ensures var pt := PointFromLParam(lparam);
              var consumed := showControls && ChainHit(buttons, pt).Some?;
              dispatched == old(dispatched) +
                (if consumed && callbackSet then [ActionName(ChainHit(buttons, pt).value)] else []) &&
              if !consumed && isDraggable then isDragging && dragPoint == pt
              else isDragging == old(isDragging) && dragPoint == old(dragPoint)
    {
      var pt := PointFromLParam(lparam);
      var clicked := false;
      if showControls {
        clicked := HandleButtonClick(pt);
      }
      if !clicked && isDraggable {
        isDragging := true;
        dragPoint := pt;
      }
    }

    method OnLButtonUp()
      modifies this`isDragging
      ensures !isDragging
    {
      if isDragging {
        isDragging := false;
      }
    }

    /** Pointer moved to `lparam`: a drag keeps the press point under the
        pointer; the first move over the window arms the dwell timer. */
    method OnMouseMove(lparam: int, now: nat)
      requires Valid()
      modifies this`posX, this`posY, this`isHovered, this`hoverStartTime, this`hoverTimerArmed
      ensures Valid() && isHovered
      ensures var pt := PointFromLParam(lparam);
              if old(isDragging)
              then posX == old(posX) + (pt.x - dragPoint.x) && posY == old(posY) + (pt.y - dragPoint.y)
              else posX == old(posX) && posY == old(posY)
      ensures old(isHovered) ==> hoverStartTime == old(hoverStartTime) && hoverTimerArmed == old(hoverTimerArmed)
      ensures !old(isHovered) ==> hoverStartTime == now && hoverTimerArmed
    {
      if isDragging {
        var pt := PointFromLParam(lparam);
        posX := posX + (pt.x - dragPoint.x);
        posY := posY + (pt.y - dragPoint.y);
      }
      if !isHovered {
        isHovered := true;
        hoverStartTime := now;
        hoverTimerArmed := true;
      }
    }

    /** Pointer left: collapse to the compact strip and repaint. */
    method OnMouseLeave(now: nat)
      requires Valid() && ClockAt(now) && created
      modifies this`isHovered, this`showControls, this`hoverStartTime, this`hoverTimerArmed
      modifies this`windowHeight, this`lastScrollTime, this`scrollTimerArmed
      modifies this`buttons, this`lyricScroll, this`transScroll
      ensures Valid() && ClockAt(now)
      ensures !isHovered && !showControls && hoverStartTime == 0 && !hoverTimerArmed
      ensures Snapshot() == Paint(old(Snapshot()), Config(), now)
    {
      isHovered, showControls, hoverStartTime := false, false, 0;
      hoverTimerArmed := false;
      UpdateWindow(now);
    }

    /** Timer `id` fired: timer 1 opens the panel once the pointer has dwelt
        on the strip; timer 2 drives scrolling while the strip is compact and a
        line is wide, and stops itself otherwise. */
    method OnTimer(id: int, now: nat)
      requires Valid() && ClockAt(now) && created
      modifies this`showControls, this`hoverTimerArmed
      modifies this`windowHeight, this`lastScrollTime, this`scrollTimerArmed
      modifies this`buttons, this`lyricScroll, this`transScroll
      ensures Valid() && ClockAt(now)
      ensures var expand := id == 1 && old(isHovered) && !old(showControls);
              showControls == (old(showControls) || expand) &&
              hoverTimerArmed == (old(hoverTimerArmed) && !expand)
      // timer 1 after the dwell: open the panel
      ensures id == 1 && old(isHovered) && !old(showControls) ==>
                Snapshot() == Paint(old(Snapshot()), Config(), now)
      // timer 2 on the compact strip with a wide line: one more scroll frame
      ensures id == 2 && !old(showControls) && (old(lyricScroll.needsScroll) || old(transScroll.needsScroll)) ==>
                Snapshot() == Paint(old(Snapshot()), Config(), now)
      // timer 2 otherwise: the timer stops itself
      ensures id == 2 && (old(showControls) || !(old(lyricScroll.needsScroll) || old(transScroll.needsScroll))) ==>
                Snapshot() == old(Snapshot()).(scrollTimer := false)
      // any other timer event changes nothing
      ensures id != 2 && !(id == 1 && old(isHovered) && !old(showControls)) ==> Snapshot() == old(Snapshot())
    {
      if id == 1 && isHovered && !showControls {
        ExpandPanel(now);
      } else if id == 2 {
        if !showControls && (lyricScroll.needsScroll || transScroll.needsScroll) {
          UpdateWindow(now);
        } else {
          scrollTimerArmed := false;
        }
      }
    }

    /** The dwell timer's action: open the panel, grown downwards, and repaint. */
    method ExpandPanel(now: nat)
      requires Valid() && ClockAt(now) && created && isHovered && !showControls
      modifies this`showControls, this`hoverTimerArmed
      modifies this`windowHeight, this`lastScrollTime, this`scrollTimerArmed
      modifies this`buttons, this`lyricScroll, this`transScroll
      ensures Valid() && ClockAt(now)
      ensures showControls && !hoverTimerArmed
      ensures Snapshot() == Paint(old(Snapshot()), Config(), now)
    {
      showControls := true;
      hoverTimerArmed := false;
      UpdateWindow(now);
    }
  }
}
