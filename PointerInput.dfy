/** Decoding of the client-area mouse coordinates packed into a mouse
    message's `lparam`: x in the low 16 bits, y in the next 16. */
module PointerInput {
  import opened PanelLayout

  const WordSize: int := 65536

  function LowWord(lparam: int): (w: int)
    ensures 0 <= w < WordSize
  {
    lparam % WordSize
  }

  function HighWord(lparam: int): (w: int)
    ensures 0 <= w < WordSize
  {
    (lparam / WordSize) % WordSize
  }

  /** The decoding the window procedure uses: `{LOWORD(lparam), HIWORD(lparam)}`,
      both halves read as unsigned. */
  function PointFromLParamAsWritten(lparam: int): (pt: Point)
    // never negative, whatever the pointer's position
    ensures 0 <= pt.x < WordSize && 0 <= pt.y < WordSize
  {
    Point(LowWord(lparam), HighWord(lparam))
  }

  /** A 16-bit word read as a signed short. */
  function SignedWord(w: int): (v: int)
    requires 0 <= w < WordSize
    ensures -32768 <= v < 32768 && (v - w) % WordSize == 0
  {
    if w >= 32768 then w - WordSize else w
  }

  /** Signed decoding of both halves (what `GET_X_LPARAM`/`GET_Y_LPARAM` do). */
  function PointFromLParam(lparam: int): (pt: Point)
    ensures InShortRange(pt)
    // each coordinate agrees with its word modulo 2^16
    ensures (pt.x - LowWord(lparam)) % WordSize == 0 && (pt.y - HighWord(lparam)) % WordSize == 0
  {
    Point(SignedWord(LowWord(lparam)), SignedWord(HighWord(lparam)))
  }

  /** How the system packs a client point into `lparam` (`MAKELPARAM`). */
  function PackPoint(pt: Point): int {
    (pt.y % WordSize) * WordSize + pt.x % WordSize
  }

  predicate InShortRange(pt: Point) {
    -32768 <= pt.x < 32768 && -32768 <= pt.y < 32768
  }

  /** Signed decoding recovers every point the system can report, including
      the negative coordinates of a pointer captured outside the window. */
  lemma DecodeRoundTrip(pt: Point)
    requires InShortRange(pt)
    ensures PointFromLParam(PackPoint(pt)) == pt
  {
    var lp := PackPoint(pt);
    assert LowWord(lp) == pt.x % WordSize;
    assert lp / WordSize == pt.y % WordSize;
    assert HighWord(lp) == pt.y % WordSize;
  }

  /** The two decodings agree on points inside the window. */
  lemma DecodersAgreeOnNonNegative(pt: Point)
    requires 0 <= pt.x < 32768 && 0 <= pt.y < 32768
    ensures PointFromLParamAsWritten(PackPoint(pt)) == PointFromLParam(PackPoint(pt)) == pt
  {
    DecodeRoundTrip(pt);
  }

  /** The unsigned decoding turns a pointer 5 px left of the window into x = 65531. */
  lemma AsWrittenDecodingWrapsNegative()
    ensures PointFromLParamAsWritten(PackPoint(Point(-5, 0))) == Point(65531, 0)
    ensures PointFromLParam(PackPoint(Point(-5, 0))) == Point(-5, 0)
  {
    DecodeRoundTrip(Point(-5, 0));
  }

  /** The drag rule of the mouse-move handler: new left = left + (mouse - anchor). */
  function DragTarget(windowLeft: int, mouseX: int, anchorX: int): (left: int)
    // the press point lands on the pointer's screen position
    ensures left + anchorX == windowLeft + mouseX
  {
    windowLeft + (mouseX - anchorX)
  }

  /** During a captured drag, with the window at x = 100, the press anchor at
      client x = 10 and the pointer moved to client x = -5 (screen x 95): the
      as-written decoding sends the window to x = 65621, while keeping the
      press point under the pointer means x = 85, which the signed decoding
      gives. */
  lemma DragJumpAsWritten()
    ensures DragTarget(100, PointFromLParamAsWritten(PackPoint(Point(-5, 0))).x, 10) == 65621
    ensures DragTarget(100, PointFromLParam(PackPoint(Point(-5, 0))).x, 10) == 85
  {
    AsWrittenDecodingWrapsNegative();
  }

  /** With signed decoding the press point stays under the pointer: after the
      move, window left plus anchor is the pointer's screen x. */
  lemma DragKeepsAnchorUnderPointer(windowLeft: int, pointer: Point, anchorX: int)
    requires InShortRange(pointer)
    ensures DragTarget(windowLeft, PointFromLParam(PackPoint(pointer)).x, anchorX) + anchorX == windowLeft + pointer.x
  {
    DecodeRoundTrip(pointer);
  }
}
