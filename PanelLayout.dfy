/** Geometry of the desktop lyric window: its two heights, the eight button
    rectangles the control panel records while it paints, and the hit-test
    that resolves a press against them. All coordinates are client pixels. */
module PanelLayout {
  import opened Wrappers
  import opened Numeric

  /** Fixed window width and compact base height, in pixels. */
  const WindowWidth: int := 800
  const CompactBaseHeight: int := 100

  const ButtonSize: int := 36
  const SmallButtonSize: int := 28
  const CloseButtonSize: int := 24
  const ButtonSpacing: int := 50
  const Row2Spacing: int := 55

  datatype Point = Point(x: int, y: int)

  /** A Win32 `RECT`; both edges are part of it for hit-testing. */
  datatype Rect = Rect(left: int, top: int, right: int, bottom: int)

  /** `IsPointInRect`: inclusive on all four edges. */
  function InRect(pt: Point, r: Rect): (inside: bool)
    // only a rectangle with non-negative extent contains anything
    ensures inside ==> r.left <= r.right && r.top <= r.bottom
    // the corners belong to every such rectangle
    ensures pt == Point(r.left, r.top) || pt == Point(r.right, r.bottom) ==>
              (inside <==> r.left <= r.right && r.top <= r.bottom)
  {
    r.left <= pt.x <= r.right && r.top <= pt.y <= r.bottom
  }

  predicate Disjoint(a: Rect, b: Rect) {
    a.right < b.left || b.right < a.left || a.bottom < b.top || b.bottom < a.top
  }

  /** The eight panel buttons. */
  datatype Button = Previous | PlayPause | Next | FontSizeUp | FontSizeDown | ColorPicker | ToggleTranslation | Close

  /** The action identifier handed to the playback callback. */
  function ActionName(b: Button): string {
    match b
    case Previous => "previous"
    case PlayPause => "play_pause"
    case Next => "next"
    case FontSizeUp => "font_size_up"
    case FontSizeDown => "font_size_down"
    case ColorPicker => "color_picker"
    case ToggleTranslation => "toggle_translation"
    case Close => "close"
  }

  /** The callback can tell every button apart by its action identifier. */
  lemma ActionNamesDistinct(a: Button, b: Button)
    ensures ActionName(a) == ActionName(b) <==> a == b
  {
    if a != b {
      match a
      case Previous => assert ActionName(a)[0] == 'p' && ActionName(a)[1] == 'r';
      case PlayPause => assert ActionName(a)[1] == 'l';
      case Next => assert ActionName(a)[0] == 'n';
      case FontSizeUp => assert ActionName(a)[10] == 'u';
      case FontSizeDown => assert ActionName(a)[10] == 'd';
      case ColorPicker => assert ActionName(a)[0] == 'c' && ActionName(a)[1] == 'o';
      case ToggleTranslation => assert ActionName(a)[0] == 't';
      case Close => assert ActionName(a)[0] == 'c' && ActionName(a)[1] == 'l';
    }
  }

  /** The order a press is tested in. */
  const HitOrder: seq<Button> := [Previous, PlayPause, Next, FontSizeUp, FontSizeDown, ColorPicker, ToggleTranslation, Close]

  /** The eight rectangle fields of the window, as one value. */
  datatype ButtonRects = ButtonRects(
    previous: Rect, playPause: Rect, next: Rect, fontSizeUp: Rect,
    fontSizeDown: Rect, colorPicker: Rect, translationToggle: Rect, close: Rect)

  function RectOf(b: ButtonRects, btn: Button): Rect {
    match btn
    case Previous => b.previous
    case PlayPause => b.playPause
    case Next => b.next
    case FontSizeUp => b.fontSizeUp
    case FontSizeDown => b.fontSizeDown
    case ColorPicker => b.colorPicker
    case ToggleTranslation => b.translationToggle
    case Close => b.close
  }

  /** Index in `order` of the first button whose rectangle holds `pt`, or -1. */
  function FirstHit(b: ButtonRects, pt: Point, order: seq<Button>): (k: int)
    ensures -1 <= k < |order|
    ensures k >= 0 ==> InRect(pt, RectOf(b, order[k]))
    ensures forall j :: 0 <= j < |order| && (k < 0 || j < k) ==> !InRect(pt, RectOf(b, order[j]))
    decreases |order|
  {
    if order == [] then -1
    else if InRect(pt, RectOf(b, order[0])) then 0
    else
      var k := FirstHit(b, pt, order[1..]);
      if k < 0 then -1 else k + 1
  }

  /** `HandleButtonClick` without its side effect: the button a press selects. */
  function HitTest(b: ButtonRects, pt: Point): (r: Option<Button>)
    ensures r.Some? ==> InRect(pt, RectOf(b, r.value))
    ensures r.None? ==> forall j :: 0 <= j < |HitOrder| ==> !InRect(pt, RectOf(b, HitOrder[j]))
  {
    var k := FirstHit(b, pt, HitOrder);
    if k >= 0 then Some(HitOrder[k]) else None
  }

  /** A press selects a button exactly when it lies in that button's rectangle
      and in none of the rectangles tested before it; no button exactly when it
      lies in no rectangle. */
  lemma HitTestFirstMatch(b: ButtonRects, pt: Point, i: int)
    requires 0 <= i < |HitOrder|
    ensures HitTest(b, pt) == Some(HitOrder[i]) <==>
            InRect(pt, RectOf(b, HitOrder[i])) && forall j :: 0 <= j < i ==> !InRect(pt, RectOf(b, HitOrder[j]))
    ensures HitTest(b, pt) == None <==> forall j :: 0 <= j < |HitOrder| ==> !InRect(pt, RectOf(b, HitOrder[j]))
  {
    var k := FirstHit(b, pt, HitOrder);
    if HitTest(b, pt) == Some(HitOrder[i]) {
      // the eight buttons are distinct, so the selected index is i
      assert k == i;
    }
    if InRect(pt, RectOf(b, HitOrder[i])) && forall j :: 0 <= j < i ==> !InRect(pt, RectOf(b, HitOrder[j])) {
      assert k == i;
    }
  }

  /** The `else if` chain of `HandleButtonClick`. */
  function ChainHit(b: ButtonRects, pt: Point): (r: Option<Button>)
    // a selected button contains the press
    ensures r.Some? ==> InRect(pt, RectOf(b, r.value))
  {
    if InRect(pt, b.previous) then Some(Previous)
    else if InRect(pt, b.playPause) then Some(PlayPause)
    else if InRect(pt, b.next) then Some(Next)
    else if InRect(pt, b.fontSizeUp) then Some(FontSizeUp)
    else if InRect(pt, b.fontSizeDown) then Some(FontSizeDown)
    else if InRect(pt, b.colorPicker) then Some(ColorPicker)
    else if InRect(pt, b.translationToggle) then Some(ToggleTranslation)
    else if InRect(pt, b.close) then Some(Close)
    else None
  }

  /** The first-match reading agrees with the chain. */
  lemma HitTestIsChain(b: ButtonRects, pt: Point)
    ensures HitTest(b, pt) == ChainHit(b, pt)
  {
    if InRect(pt, b.previous) { HitTestFirstMatch(b, pt, 0); }
    else if InRect(pt, b.playPause) { HitTestFirstMatch(b, pt, 1); }
    else if InRect(pt, b.next) { HitTestFirstMatch(b, pt, 2); }
    else if InRect(pt, b.fontSizeUp) { HitTestFirstMatch(b, pt, 3); }
    else if InRect(pt, b.fontSizeDown) { HitTestFirstMatch(b, pt, 4); }
    else if InRect(pt, b.colorPicker) { HitTestFirstMatch(b, pt, 5); }
    else if InRect(pt, b.translationToggle) { HitTestFirstMatch(b, pt, 6); }
    else if InRect(pt, b.close) { HitTestFirstMatch(b, pt, 7); }
    else { HitTestFirstMatch(b, pt, 0); }
  }

  /** Half a button's size, rounded down (all sizes are positive). */
  function Half(size: int): int {
    size / 2
  }

  /** A circular button of diameter `size` centred horizontally on `centerX`. */
  function ButtonBox(centerX: int, top: int, size: int): Rect {
    Rect(centerX - Half(size), top, centerX - Half(size) + size, top + size)
  }

  /** Height of the translation row in the expanded panel. */
  function PanelTranslationHeight(fontSize: int): int {
    ScaleTenths(fontSize, 7) + 5
  }

  /** `GetControlPanelHeight`: header, lyric row, optional translation row,
      then spacing, the two button rows with their gap, and a bottom margin. */
  function PanelHeight(fontSize: int, hasTranslation: bool): (h: int)
    // the panel ends 15 px below the second button row of a panel showing a lyric line
    ensures h == Layout(WindowWidth, fontSize, true, hasTranslation).fontSizeDown.bottom + 15
  {
    70 + fontSize + 10 + (if hasTranslation then PanelTranslationHeight(fontSize) else 0) + 15 + 36 + 10 + 28 + 15
  }

  /** The compact strip's height (`UpdateWindow` and the mouse-leave handler). */
  function CompactHeight(fontSize: int, hasTranslation: bool): (h: int)
    ensures !hasTranslation ==> h == CompactBaseHeight
    // a translation adds 10 px and at most one more font size
    ensures hasTranslation && fontSize >= 0 ==> CompactBaseHeight + 10 <= h <= CompactBaseHeight + 10 + fontSize
  {
    CompactBaseHeight + (if hasTranslation then ScaleTenths(fontSize, 6) + 10 else 0)
  }

  /** The rectangles `DrawControlPanel` records for a panel `width` wide. The
      first row holds previous / play-pause / next, 50 px apart around the
      centre; the second row the four small buttons, 55 px apart; close sits
      in the top-right corner. */
  function Layout(width: int, fontSize: int, lyricNonEmpty: bool, hasTranslation: bool): (b: ButtonRects)
    // the first row: three buttons on one line, 50 px apart, play-pause centred
    ensures b.previous.top == b.playPause.top == b.next.top
    ensures b.playPause.left - b.previous.left == ButtonSpacing == b.next.left - b.playPause.left
    ensures b.playPause.left + Half(ButtonSize) == DivTrunc(width, 2)
    // the second row: four buttons 10 px below the first row
    ensures b.fontSizeUp.top == b.fontSizeDown.top == b.colorPicker.top == b.translationToggle.top == b.previous.bottom + 10
    // close sits 10 px in from the top-right corner
    ensures b.close.right == width - 10 && b.close.top == 10
  {
    var lyricBottom := 70 + (if lyricNonEmpty then fontSize + 10 else 0) + (if hasTranslation then PanelTranslationHeight(fontSize) else 0);
    var row1 := lyricBottom + 15;
    var row2 := row1 + ButtonSize + 10;
    var centerX := DivTrunc(width, 2);
    var near := ScaleTenths(Row2Spacing, 5);
    var far := ScaleTenths(Row2Spacing, 15);
    ButtonRects(
      ButtonBox(centerX - ButtonSpacing, row1, ButtonSize),
      ButtonBox(centerX, row1, ButtonSize),
      ButtonBox(centerX + ButtonSpacing, row1, ButtonSize),
      ButtonBox(centerX - near, row2, SmallButtonSize),
      ButtonBox(centerX - far, row2, SmallButtonSize),
      ButtonBox(centerX + near, row2, SmallButtonSize),
      ButtonBox(centerX + far, row2, SmallButtonSize),
      Rect(width - CloseButtonSize - 10, 10, width - 10, 10 + CloseButtonSize))
  }

  /** The second button row ends 15 px above the bottom of the panel exactly
      when the panel height accounts for at least the rows above it: always
      with a lyric line, and without one as long as the font size is at least
      -10. With such a font size all eight buttons lie inside the panel. */
  lemma ButtonsFitPanel(fontSize: int, lyricNonEmpty: bool, hasTranslation: bool)
    ensures var b := Layout(WindowWidth, fontSize, lyricNonEmpty, hasTranslation);
            b.fontSizeDown.bottom <= PanelHeight(fontSize, hasTranslation) - 15 <==> (lyricNonEmpty || fontSize >= -10)
    ensures fontSize >= -10 ==>
              var b := Layout(WindowWidth, fontSize, lyricNonEmpty, hasTranslation);
              forall btn :: 0 <= RectOf(b, btn).left && RectOf(b, btn).right <= WindowWidth &&
                            0 <= RectOf(b, btn).top && RectOf(b, btn).bottom <= PanelHeight(fontSize, hasTranslation) - 15
  {
    if hasTranslation && fontSize >= -10 {
      assert PanelTranslationHeight(fontSize) >= -2;
    }
  }

  /** With a non-negative font size no two button rectangles share a pixel, so
      for a freshly painted panel the priority order never decides anything. */
  lemma LayoutDisjoint(fontSize: int, lyricNonEmpty: bool, hasTranslation: bool)
    requires fontSize >= 0
    ensures var b := Layout(WindowWidth, fontSize, lyricNonEmpty, hasTranslation);
            forall i, j :: 0 <= i < j < |HitOrder| ==> Disjoint(RectOf(b, HitOrder[i]), RectOf(b, HitOrder[j]))
  {
  }

  /** Hence, on a freshly painted panel, a press selects a button exactly when
      it lies in that button's rectangle. */
  lemma FreshLayoutHit(fontSize: int, lyricNonEmpty: bool, hasTranslation: bool, pt: Point, i: int)
    requires fontSize >= 0 && 0 <= i < |HitOrder|
    ensures var b := Layout(WindowWidth, fontSize, lyricNonEmpty, hasTranslation);
            HitTest(b, pt) == Some(HitOrder[i]) <==> InRect(pt, RectOf(b, HitOrder[i]))
  {
    var b := Layout(WindowWidth, fontSize, lyricNonEmpty, hasTranslation);
    LayoutDisjoint(fontSize, lyricNonEmpty, hasTranslation);
    HitTestFirstMatch(b, pt, i);
    if InRect(pt, RectOf(b, HitOrder[i])) {
      forall j | 0 <= j < i ensures !InRect(pt, RectOf(b, HitOrder[j])) {
        assert Disjoint(RectOf(b, HitOrder[j]), RectOf(b, HitOrder[i]));
      }
    }
  }

  /** Both heights grow with the font size. */
  lemma HeightsMonotone(fontSize1: int, fontSize2: int, hasTranslation: bool)
    requires fontSize1 <= fontSize2
    ensures PanelHeight(fontSize1, hasTranslation) <= PanelHeight(fontSize2, hasTranslation)
    ensures CompactHeight(fontSize1, hasTranslation) <= CompactHeight(fontSize2, hasTranslation)
  {
    ScaleTenthsMonotone(fontSize1, fontSize2, 7);
    ScaleTenthsMonotone(fontSize1, fontSize2, 6);
  }

  /** Expanding never shrinks the window: for a non-negative font size the
      panel is strictly taller than the compact strip. */
  lemma PanelTallerThanCompact(fontSize: int, hasTranslation: bool)
    requires fontSize >= 0
    ensures PanelHeight(fontSize, hasTranslation) > CompactHeight(fontSize, hasTranslation)
  {
  }

  /** The 32 px default font with a translation: a 243 px panel and a 129 px strip. */
  lemma DefaultFontHeights()
    ensures PanelHeight(32, true) == 243 && CompactHeight(32, true) == 129
    ensures PanelHeight(32, false) == 216 && CompactHeight(32, false) == 100
  {
  }
}
