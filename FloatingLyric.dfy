/** The Android floating lyric: an overlay text view that follows playback.
    The host sends the song's timed lines and, from time to time, the playback
    position; between those syncs a service tick extrapolates the position
    from the last sync and moves the view to the line it falls in. */
module FloatingLyric {
  import opened Wrappers
  import opened Numeric
  import opened LyricTimeline

  /** The text a freshly created view shows. */
  const NoLyricText: string := "♪ 暂无歌词"
  const DefaultX: int := 100
  const DefaultY: int := 200

  /** The touch events the drag listener distinguishes. */
  datatype TouchAction = Down | Move | Up | OtherAction

  class FloatingLyricController {
    /** Whether the plugin holds an application context. */
    var attached: bool
    /** Whether the overlay view has been added to the window manager. */
    var visible: bool
    /** The view's text. */
    var display: string
    /** The view's layout position. */
    var posX: int
    var posY: int
    var isDraggable: bool
    /** Whether the view has a drag listener, and that listener's own state. */
    var dragListener: bool
    var initialX: int
    var initialY: int
    var initialTouchX: real
    var initialTouchY: real
    var alpha: real
    var lyrics: seq<LyricLine>
    var currentPosition: int
    var lastSyncTime: int
    var lastSyncPosition: int
    var isPlaying: bool
    var currentLyricIndex: int
    /** Whether the service's update callback is installed. */
    var updateLoopActive: bool

    ghost predicate Valid()
      reads this`alpha, this`dragListener, this`visible, this`lyrics, this`currentLyricIndex
    {
      0.0 <= alpha <= 1.0 && (dragListener ==> visible) &&
      SortedByTime(lyrics) && -1 <= currentLyricIndex
    }

    function View(): LineView
      reads this`currentLyricIndex, this`display
    {
      LineView(currentLyricIndex, display)
    }

    constructor ()
      ensures Valid()
      ensures !attached && !visible && isDraggable && !dragListener && alpha == 1.0
      ensures lyrics == [] && currentPosition == 0 && lastSyncTime == 0 && lastSyncPosition == 0
      ensures !isPlaying && currentLyricIndex == -1 && !updateLoopActive
    {
      attached, visible, display := false, false, [];
      posX, posY := 0, 0;
      isDraggable, dragListener := true, false;
      initialX, initialY, initialTouchX, initialTouchY := 0, 0, 0.0, 0.0;
      alpha := 1.0;
      lyrics := [];
      currentPosition, lastSyncTime, lastSyncPosition := 0, 0, 0;
      isPlaying, currentLyricIndex, updateLoopActive := false, -1, false;
    }

    /** The engine hands the plugin its application context. */
    method Attach()
      modifies this`attached
      ensures attached
    {
      attached := true;
    }

    /** The engine detaches: the window is hidden, then the context dropped. */
    method Detach()
      requires Valid()
      modifies this`attached, this`visible, this`dragListener, this`updateLoopActive
      ensures Valid() && !attached && !visible && !dragListener
      ensures updateLoopActive == (old(updateLoopActive) && !old(attached))
    {
      HideFloatingWindow();
      attached := false;
    }

    /** Add the overlay view. `permitted` is whether the overlay permission is
        granted. Fails without a context or permission; succeeds at once when
        the view is already shown; otherwise a fresh view with the placeholder
        text appears at the default position. */
    method ShowFloatingWindow(permitted: bool) returns (ok: bool)
      requires Valid()
      modifies this`visible, this`display, this`posX, this`posY, this`dragListener
      modifies this`initialX, this`initialY, this`initialTouchX, this`initialTouchY
      ensures Valid()
      ensures ok <==> attached && permitted
      ensures !ok || old(visible) ==>
                visible == old(visible) && display == old(display) && posX == old(posX) &&
                posY == old(posY) && dragListener == old(dragListener)
      ensures ok && !old(visible) ==>
                visible && display == NoLyricText && posX == DefaultX && posY == DefaultY &&
                dragListener == isDraggable
      // a new listener starts with its anchors at zero; otherwise they are kept
      ensures ok && !old(visible) && isDraggable ==>
                initialX == 0 && initialY == 0 && initialTouchX == 0.0 && initialTouchY == 0.0
      ensures !(ok && !old(visible) && isDraggable) ==>
                initialX == old(initialX) && initialY == old(initialY) &&
                initialTouchX == old(initialTouchX) && initialTouchY == old(initialTouchY)
    {
      if !attached {
        return false;
      }
      if !permitted {
        return false;
      }
      if visible {
        return true;
      }
      display := NoLyricText;
      posX, posY := DefaultX, DefaultY;
      visible := true;
      if isDraggable {
        SetupDragListener();
      }
      ok := true;
    }

    /** Remove the overlay view, stopping the update loop first. */
    method HideFloatingWindow()
      requires Valid()
      modifies this`visible, this`dragListener, this`updateLoopActive
      ensures Valid() && !visible && !dragListener
      ensures updateLoopActive == (old(updateLoopActive) && !attached)
    {
      StopLyricUpdateLoop();
      if visible {
        visible := false;
        dragListener := false;
      }
    }

    /** Show `text` on the view, or the placeholder when it is blank. */
    method UpdateLyricText(text: string)
      modifies this`display
      ensures display == if visible then Shown(text) else old(display)
    {
      if visible {
        display := if Trim(text) == [] then Placeholder else text;
      }
    }

    method SetPosition(x: int, y: int)
      modifies this`posX, this`posY
      ensures visible ==> posX == x && posY == y
      ensures !visible ==> posX == old(posX) && posY == old(posY)
    {
      if visible {
        posX, posY := x, y;
      }
    }

    /** A new drag listener starts with its anchors at zero. */
    method SetupDragListener()
      requires visible
      modifies this`dragListener, this`initialX, this`initialY, this`initialTouchX, this`initialTouchY
      ensures dragListener && initialX == 0 && initialY == 0 && initialTouchX == 0.0 && initialTouchY == 0.0
    {
      dragListener := true;
      initialX, initialY, initialTouchX, initialTouchY := 0, 0, 0.0, 0.0;
    }

    method SetDraggable(draggable: bool)
      requires Valid()
      modifies this`isDraggable, this`dragListener
      modifies this`initialX, this`initialY, this`initialTouchX, this`initialTouchY
      ensures Valid() && isDraggable == draggable
      ensures dragListener == (draggable && visible)
      // a reinstalled listener starts with its anchors at zero; otherwise they are kept
      ensures draggable && visible ==>
                initialX == 0 && initialY == 0 && initialTouchX == 0.0 && initialTouchY == 0.0
      ensures !(draggable && visible) ==>
                initialX == old(initialX) && initialY == old(initialY) &&
                initialTouchX == old(initialTouchX) && initialTouchY == old(initialTouchY)
    {
      isDraggable := draggable;
      if draggable && visible {
        SetupDragListener();
      } else {
        dragListener := false;
      }
    }

    /** The stored opacity is the input clamped to [0, 1]. */
    method SetAlpha(alphaValue: real)
      requires Valid()
      modifies this`alpha
      ensures Valid()
      ensures 0.0 <= alpha <= 1.0
      ensures 0.0 <= alphaValue <= 1.0 ==> alpha == alphaValue
      ensures alphaValue < 0.0 ==> alpha == 0.0
      ensures alphaValue > 1.0 ==> alpha == 1.0
    {
      alpha := CoerceIn(alphaValue, 0.0, 1.0);
    }

    /** The drag listener: a press records the view's position and the raw
        touch point; a move places the view at that position plus the touch
        delta, each coordinate truncated toward zero. */
    method OnTouch(action: TouchAction, rawX: real, rawY: real) returns (handled: bool)
      requires Valid() && dragListener
      modifies this`initialX, this`initialY, this`initialTouchX, this`initialTouchY, this`posX, this`posY
      ensures Valid()
      ensures handled <==> !action.OtherAction?
      ensures action.Down? ==>
                initialX == posX && initialY == posY && initialTouchX == rawX && initialTouchY == rawY &&
                posX == old(posX) && posY == old(posY)
      ensures action.Move? ==>
                posX == initialX + Trunc(rawX - initialTouchX) && posY == initialY + Trunc(rawY - initialTouchY) &&
                initialX == old(initialX) && initialY == old(initialY) &&
                initialTouchX == old(initialTouchX) && initialTouchY == old(initialTouchY)
      ensures !action.Down? && !action.Move? ==>
                posX == old(posX) && posY == old(posY) && initialX == old(initialX) && initialY == old(initialY) &&
                initialTouchX == old(initialTouchX) && initialTouchY == old(initialTouchY)
    {
      match action
      case Down =>
        if visible {
          initialX, initialY := posX, posY;
        }
        initialTouchX, initialTouchY := rawX, rawY;
        handled := true;
      case Move =>
        if visible {
          posX := initialX + Trunc(rawX - initialTouchX);
          posY := initialY + Trunc(rawY - initialTouchY);
        }
        handled := true;
      case Up =>
        handled := true;
      case OtherAction =>
        handled := false;
    }

    /** Install the service's update callback, anchoring the position clock
        if it was never anchored. Needs the context. */
    method StartLyricUpdateLoop(now: int)
      modifies this`lastSyncTime, this`lastSyncPosition, this`updateLoopActive
      ensures updateLoopActive == (old(updateLoopActive) || attached)
      ensures attached && old(lastSyncTime) == 0 ==> lastSyncTime == now && lastSyncPosition == currentPosition
      ensures !(attached && old(lastSyncTime) == 0) ==>
                lastSyncTime == old(lastSyncTime) && lastSyncPosition == old(lastSyncPosition)
    {
      if !attached {
        return;
      }
      if lastSyncTime == 0 {
        lastSyncTime := now;
        lastSyncPosition := currentPosition;
      }
      updateLoopActive := true;
    }

    method StopLyricUpdateLoop()
      modifies this`updateLoopActive
      ensures updateLoopActive == (old(updateLoopActive) && !attached)
    {
      if !attached {
        return;
      }
      updateLoopActive := false;
    }

    /** Move the view to the line at the current position, touching it only
        when that line differs from the one recorded. */
    method UpdateCurrentLyric()
      requires Valid()
      modifies this`display, this`currentLyricIndex
      ensures Valid()
      ensures View() == Refresh(old(View()), lyrics, currentPosition, visible)
    {
      PlaceholderShown();
      if lyrics == [] {
        if currentLyricIndex != -1 {
          UpdateLyricText(Placeholder);
          currentLyricIndex := -1;
        }
        return;
      }
      var newLineIndex := ScanLineIndex(lyrics, currentPosition);
      if newLineIndex != currentLyricIndex {
        currentLyricIndex := newLineIndex;
        if 0 <= newLineIndex < |lyrics| {
          UpdateLyricText(LineDisplay(lyrics[newLineIndex]));
        } else {
          UpdateLyricText(Placeholder);
        }
      }
    }

    /** New lines from the host (`None` when they could not be decoded, which
        changes nothing): they are stored sorted by time, the current line is
        forgotten and the placeholder shown until the next position sync. */
    method SetLyricsData(parsed: Option<seq<LyricLine>>, now: int)
      requires Valid()
      modifies this`lyrics, this`currentLyricIndex, this`display
      modifies this`lastSyncTime, this`lastSyncPosition, this`updateLoopActive
      ensures Valid()
      ensures parsed.None? ==>
                lyrics == old(lyrics) && currentLyricIndex == old(currentLyricIndex) && display == old(display) &&
                lastSyncTime == old(lastSyncTime) && lastSyncPosition == old(lastSyncPosition) &&
                updateLoopActive == old(updateLoopActive)
      ensures parsed.Some? ==>
                lyrics == SortByTime(parsed.value) && currentLyricIndex == -1 &&
                display == (if visible then Placeholder else old(display)) &&
                updateLoopActive == (old(updateLoopActive) || (visible && attached))
      ensures parsed.Some? && visible && attached && old(lastSyncTime) == 0 ==>
                lastSyncTime == now && lastSyncPosition == currentPosition
      ensures !(parsed.Some? && visible && attached && old(lastSyncTime) == 0) ==>
                lastSyncTime == old(lastSyncTime) && lastSyncPosition == old(lastSyncPosition)
    {
      if parsed.None? {
        return;
      }
      lyrics := SortByTime(parsed.value);
      currentLyricIndex := -1;
      PlaceholderShown();
      UpdateLyricText(Placeholder);
      if visible {
        StartLyricUpdateLoop(now);
      }
    }

    /** A position sync from the host re-anchors the position clock and, when
        the view is shown, refreshes the line at once. */
    method UpdatePlaybackPosition(position: int, now: int)
      requires Valid()
      modifies this`lastSyncTime, this`lastSyncPosition, this`currentPosition
      modifies this`display, this`currentLyricIndex
      ensures Valid()
      ensures lastSyncTime == now && lastSyncPosition == position && currentPosition == position
      ensures View() == if visible then Refresh(old(View()), lyrics, position, true) else old(View())
    {
      lastSyncTime := now;
      lastSyncPosition := position;
      currentPosition := position;
      if visible {
        UpdateCurrentLyric();
      }
    }

    /** Playing on a shown view (re)starts the loop, re-anchoring the clock at
        the current position on a paused-to-playing change; anything else
        stops the loop. */
    method SetPlayingState(playing: bool, now: int)
      modifies this`isPlaying, this`lastSyncTime, this`lastSyncPosition, this`updateLoopActive
      ensures isPlaying == playing
      ensures playing && visible ==> updateLoopActive == (old(updateLoopActive) || attached)
      ensures !(playing && visible) ==> updateLoopActive == (old(updateLoopActive) && !attached)
      ensures playing && visible && !old(isPlaying) ==>
                lastSyncTime == now && lastSyncPosition == currentPosition
      ensures playing && visible && attached && old(lastSyncTime) == 0 ==>
                lastSyncTime == now && lastSyncPosition == currentPosition
      ensures !(playing && visible && !old(isPlaying)) && !(playing && visible && attached && old(lastSyncTime) == 0) ==>
                lastSyncTime == old(lastSyncTime) && lastSyncPosition == old(lastSyncPosition)
    {
      var wasPlaying := isPlaying;
      isPlaying := playing;
      if playing && visible {
        if !wasPlaying {
          lastSyncTime := now;
          lastSyncPosition := currentPosition;
        }
        StartLyricUpdateLoop(now);
      } else {
        StopLyricUpdateLoop();
      }
    }

    /** The service's periodic callback: while playing on a shown view, the
        position is the last synced one plus the time since that sync. */
    method OnUpdateTick(now: int)
      requires Valid()
      modifies this`currentPosition, this`display, this`currentLyricIndex
      ensures Valid()
      ensures updateLoopActive && isPlaying && visible ==>
                currentPosition == lastSyncPosition + (now - lastSyncTime) &&
                View() == Refresh(old(View()), lyrics, currentPosition, true)
      ensures !(updateLoopActive && isPlaying && visible) ==>
                currentPosition == old(currentPosition) && View() == old(View())
    {
      if updateLoopActive && isPlaying && visible {
        currentPosition := lastSyncPosition + (now - lastSyncTime);
        UpdateCurrentLyric();
      }
    }
  }
}
