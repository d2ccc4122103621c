/** The horizontal auto-scroll of one over-long text line of the desktop lyric
    window (the scroll block of `DrawLyric`, run once for the lyric line and
    once for the translation line). Pixels and speeds are reals; ticks are
    millisecond counts from a clock assumed monotone. */
module ScrollAnimator {

  /** Total horizontal padding reserved around a scrolling line, in pixels. */
  const Padding: real := 40.0

  /** The per-line scroll fields: offset, needs-scroll flag, last measured
      width, pause-start tick (0 = not pausing) and cached speed (px/s, 0 =
      not derived yet). */
  datatype ScrollState = ScrollState(offset: real, needsScroll: bool, textWidth: real, pauseStart: nat, speed: real)

  /** What every reachable scroll state satisfies. */
  predicate Sane(s: ScrollState) {
    s.offset >= 0.0 && s.speed >= 0.0
  }

  /** The state a line gets when its text changes at tick `now`. */
  function ResetState(now: nat): (s: ScrollState)
    // back at the left edge, pausing from `now`, with the speed to be derived again
    ensures Sane(s) && s.offset == 0.0 && s.pauseStart == now && s.speed == 0.0
  {
    ScrollState(0.0, false, 0.0, now, 0.0)
  }

  /** A line scrolls when it is wider than the viewport less the padding. */
  predicate NeedsScroll(width: real, viewport: int) {
    width > viewport as real - Padding
  }

  /** How far a line has to travel. */
  function MaxScroll(width: real, viewport: int): real {
    width - viewport as real + Padding
  }

  /** The largest offset a line can ever show: max(0, MaxScroll). */
  function ScrollLimit(width: real, viewport: int): (limit: real)
    ensures limit >= 0.0
    ensures NeedsScroll(width, viewport) <==> limit > 0.0
    ensures NeedsScroll(width, viewport) ==> limit == MaxScroll(width, viewport)
  {
    if MaxScroll(width, viewport) > 0.0 then MaxScroll(width, viewport) else 0.0
  }

  /** The time left for moving: 90% of the line's duration less the initial pause. */
  function AvailableTime(durationMs: int, pauseMs: int): real {
    durationMs as real * 0.9 - pauseMs as real
  }

  /** The speed derived once per line: cover `maxScroll` exactly in the
      available time, or in half a second when less than 100 ms are left. */
  function DerivedSpeed(maxScroll: real, durationMs: int, pauseMs: int): (speed: real)
    requires maxScroll > 0.0
    ensures speed > 0.0
  {
    var available := AvailableTime(durationMs, pauseMs);
    if available > 100.0 then maxScroll / (available / 1000.0) else maxScroll * 2.0
  }

  /** Scrolling at the derived speed covers the whole overflow exactly in the
      available time, or in half a second when that is too short. */
  lemma DerivedSpeedCovers(maxScroll: real, durationMs: int, pauseMs: int)
    requires maxScroll > 0.0
    ensures var speed := DerivedSpeed(maxScroll, durationMs, pauseMs);
            (AvailableTime(durationMs, pauseMs) > 100.0 ==>
               speed * (AvailableTime(durationMs, pauseMs) / 1000.0) == maxScroll) &&
            (AvailableTime(durationMs, pauseMs) <= 100.0 ==> speed * 0.5 == maxScroll)
  {
  }

  function Min(a: real, b: real): real {
    if a <= b then a else b
  }

  /** One repaint of a line measured `width` pixels wide in a viewport of
      `viewport` pixels, at tick `now`, the previous repaint having been at
      tick `last`. */
  function ScrollFrame(s: ScrollState, width: real, viewport: int, durationMs: int, pauseMs: int, now: int, last: int): (r: ScrollState)
    // the flag and the width are re-measured on every frame
    ensures r.needsScroll == NeedsScroll(width, viewport) && r.textWidth == width
    // never backwards; a pause can only end
    ensures Sane(s) && now >= last ==> Sane(r) && s.offset <= r.offset
    ensures r.pauseStart == 0 || r.pauseStart == s.pauseStart
  {
    if !NeedsScroll(width, viewport) then
      s.(needsScroll := false, textWidth := width)
    else
      var maxScroll := MaxScroll(width, viewport);
      var speed := if s.speed <= 0.0 && maxScroll > 0.0 then DerivedSpeed(maxScroll, durationMs, pauseMs) else s.speed;
      if s.pauseStart > 0 then
        var pauseStart := if now - s.pauseStart >= pauseMs then 0 else s.pauseStart;
        ScrollState(s.offset, true, width, pauseStart, speed)
      else if s.offset < maxScroll then
        var advanced := s.offset + speed * (now - last) as real / 1000.0;
        ScrollState(Min(advanced, maxScroll), true, width, 0, speed)
      else
        ScrollState(s.offset, true, width, 0, speed)
  }

  /** The rules of one frame, case by case. */
  lemma ScrollFrameRules(s: ScrollState, width: real, viewport: int, durationMs: int, pauseMs: int, now: int, last: int)
    ensures var r := ScrollFrame(s, width, viewport, durationMs, pauseMs, now, last);
            // a line that fits is not animated at all
            (!r.needsScroll ==> r.offset == s.offset && r.pauseStart == s.pauseStart && r.speed == s.speed) &&
            // the speed is derived once, then cached
            (r.needsScroll && s.speed <= 0.0 ==> r.speed == DerivedSpeed(MaxScroll(width, viewport), durationMs, pauseMs)) &&
            (s.speed > 0.0 ==> r.speed == s.speed) &&
            // the pause holds the offset, including on the frame that ends it
            (s.pauseStart > 0 ==> r.offset == s.offset) &&
            r.pauseStart == (if r.needsScroll && s.pauseStart > 0 && now - s.pauseStart >= pauseMs then 0 else s.pauseStart) &&
            // after the pause: advance by speed times elapsed seconds, clamped
            (r.needsScroll && s.pauseStart == 0 && s.offset < MaxScroll(width, viewport) ==>
               r.offset == Min(s.offset + r.speed * (now - last) as real / 1000.0, MaxScroll(width, viewport))) &&
            (r.needsScroll && s.pauseStart == 0 && s.offset >= MaxScroll(width, viewport) ==> r.offset == s.offset) &&
            // never past the end
            (s.offset <= ScrollLimit(width, viewport) ==> r.offset <= ScrollLimit(width, viewport))
  {
  }

  /** The horizontal shift the line is drawn with. */
  function DrawOffset(s: ScrollState): (dx: real)
    ensures !s.needsScroll ==> dx == 0.0
    ensures Sane(s) ==> dx <= 0.0
  {
    if s.needsScroll then -s.offset else 0.0
  }

  /** After any frame the line is drawn shifted left by at most its maximum
      scroll. The text starts half the padding right of the shift, so the end
      of a scrolling line never moves left of the window's right edge less
      half the padding. */
  lemma DrawnLineEndInView(s: ScrollState, width: real, viewport: int, durationMs: int, pauseMs: int, now: int, last: int)
    requires Sane(s) && now >= last && s.offset <= ScrollLimit(width, viewport)
    ensures var dx := DrawOffset(ScrollFrame(s, width, viewport, durationMs, pauseMs, now, last));
            -ScrollLimit(width, viewport) <= dx <= 0.0 &&
            (NeedsScroll(width, viewport) ==> dx + Padding / 2.0 + width >= viewport as real - Padding / 2.0)
  {
  }

  /** Whether the line still animates (pausing, or short of its end); this
      keeps the repaint timer armed. */
  function StillScrolling(s: ScrollState, viewport: int): (still: bool)
    ensures still ==> s.needsScroll
    // out of the pause, the line animates until it reaches its maximum scroll
    ensures s.needsScroll && s.pauseStart == 0 ==> (still <==> s.offset < MaxScroll(s.textWidth, viewport))
  {
    s.needsScroll && (s.pauseStart > 0 || s.offset < s.textWidth - viewport as real + Padding)
  }

  /** After a frame from a reachable state the repaint timer stays armed
      unless the line fits, or its pause is over and it stands at its end. */
  lemma ScrollTimerStopsAtEnd(s: ScrollState, width: real, viewport: int, durationMs: int, pauseMs: int, now: int, last: int)
    requires Sane(s) && now >= last && s.offset <= ScrollLimit(width, viewport)
    ensures var r := ScrollFrame(s, width, viewport, durationMs, pauseMs, now, last);
            !StillScrolling(r, viewport) <==>
              !NeedsScroll(width, viewport) || (r.pauseStart == 0 && r.offset == MaxScroll(width, viewport))
  {
    ScrollFrameRules(s, width, viewport, durationMs, pauseMs, now, last);
  }

  /** Ticks that never go back in time, starting after `last`. */
  predicate Chronological(last: int, times: seq<int>)
    decreases |times|
  {
    times == [] || (last <= times[0] && Chronological(times[0], times[1..]))
  }

  /** Successive repaints at `times` of a line whose measured width stays fixed. */
  function RunFrames(s: ScrollState, width: real, viewport: int, durationMs: int, pauseMs: int, last: int, times: seq<int>): ScrollState
    decreases |times|
  {
    if times == [] then s
    else RunFrames(ScrollFrame(s, width, viewport, durationMs, pauseMs, times[0], last), width, viewport, durationMs, pauseMs, times[0], times[1..])
  }

  /** Over any run of repaints with a fixed width the offset never decreases,
      never exceeds max(0, width - viewport + padding), and a speed once
      derived never changes. */
  lemma {:induction false} RunFramesMonotoneBounded(s: ScrollState, width: real, viewport: int, durationMs: int, pauseMs: int, last: int, times: seq<int>)
    requires Sane(s) && s.offset <= ScrollLimit(width, viewport)
    requires Chronological(last, times)
    ensures var r := RunFrames(s, width, viewport, durationMs, pauseMs, last, times);
            Sane(r) && s.offset <= r.offset <= ScrollLimit(width, viewport) &&
            (s.speed > 0.0 ==> r.speed == s.speed)
    decreases |times|
  {
    if times != [] {
      var s1 := ScrollFrame(s, width, viewport, durationMs, pauseMs, times[0], last);
      ScrollFrameRules(s, width, viewport, durationMs, pauseMs, times[0], last);
      RunFramesMonotoneBounded(s1, width, viewport, durationMs, pauseMs, times[0], times[1..]);
    }
  }

  /** After at least one repaint of a scrolling line, its speed is the one
      derived from its maximum scroll and the line duration, whatever the
      frame timings were (unless it had been derived before). */
  lemma {:induction false} RunFramesSpeed(s: ScrollState, width: real, viewport: int, durationMs: int, pauseMs: int, last: int, times: seq<int>)
    requires NeedsScroll(width, viewport) && times != []
    ensures RunFrames(s, width, viewport, durationMs, pauseMs, last, times).speed ==
            if s.speed > 0.0 then s.speed else DerivedSpeed(MaxScroll(width, viewport), durationMs, pauseMs)
    decreases |times|
  {
    var s1 := ScrollFrame(s, width, viewport, durationMs, pauseMs, times[0], last);
    ScrollFrameRules(s, width, viewport, durationMs, pauseMs, times[0], last);
    if |times| > 1 {
      RunFramesSpeed(s1, width, viewport, durationMs, pauseMs, times[0], times[1..]);
    }
  }

  /** Repaints that all fall inside the initial pause leave the offset where it was. */
  lemma {:induction false} RunFramesPaused(s: ScrollState, width: real, viewport: int, durationMs: int, pauseMs: int, last: int, times: seq<int>)
    requires s.pauseStart > 0
    requires forall i :: 0 <= i < |times| ==> times[i] - s.pauseStart < pauseMs
    ensures RunFrames(s, width, viewport, durationMs, pauseMs, last, times).offset == s.offset
    ensures RunFrames(s, width, viewport, durationMs, pauseMs, last, times).pauseStart == s.pauseStart
    decreases |times|
  {
    if times != [] {
      var s1 := ScrollFrame(s, width, viewport, durationMs, pauseMs, times[0], last);
      ScrollFrameRules(s, width, viewport, durationMs, pauseMs, times[0], last);
      RunFramesPaused(s1, width, viewport, durationMs, pauseMs, times[0], times[1..]);
    }
  }

  /** A 3000 ms line measured 1200 px in an 800 px viewport, with a 500 ms
      pause: it travels 1200 - 800 + 40 = 440 px in 3000 * 0.9 - 500 = 2200 ms,
      i.e. at 200 px/s; it holds for the pause, and one second after the pause
      has ended it stands at 200 px. */
  lemma ScrollScenario(t: nat)
    requires t > 0
    ensures var r := RunFrames(ResetState(t), 1200.0, 800, 3000, 500, t, [t, t + 500, t + 1500]);
            r.speed == 200.0 && r.offset == 200.0 && r.pauseStart == 0
  {
    var s1 := ScrollFrame(ResetState(t), 1200.0, 800, 3000, 500, t, t);
    assert s1.speed == 200.0 && s1.offset == 0.0 && s1.pauseStart == t;
    var s2 := ScrollFrame(s1, 1200.0, 800, 3000, 500, t + 500, t);
    assert s2.offset == 0.0 && s2.pauseStart == 0;
    var s3 := ScrollFrame(s2, 1200.0, 800, 3000, 500, t + 1500, t + 500);
    assert s3.offset == 200.0;
    var times := [t, t + 500, t + 1500];
    assert times[1..] == [t + 500, t + 1500] && times[1..][1..] == [t + 1500] && times[1..][1..][1..] == [];
    calc {
      RunFrames(ResetState(t), 1200.0, 800, 3000, 500, t, times);
      RunFrames(s1, 1200.0, 800, 3000, 500, t, [t + 500, t + 1500]);
      RunFrames(s2, 1200.0, 800, 3000, 500, t + 500, [t + 1500]);
      RunFrames(s3, 1200.0, 800, 3000, 500, t + 1500, []);
    }
  }

  /** A 100 ms line leaves no time after the pause: the fallback speed of
      twice the maximum scroll per second is taken. */
  lemma ShortLineFallbackSpeed(maxScroll: real, pauseMs: nat)
    requires maxScroll > 0.0
    ensures DerivedSpeed(maxScroll, 100, pauseMs) == 2.0 * maxScroll
  {
  }

  /** The scroll block `DrawLyric` runs for each line (written out twice in
      the window, once per line), on that line's fields. */
  method AdvanceLine(s: ScrollState, measured: real, viewport: int, durationMs: int, pauseMs: int, now: int, last: int)
    returns (r: ScrollState)
    ensures r == ScrollFrame(s, measured, viewport, durationMs, pauseMs, now, last)
  {
    var offset, pauseStart, speed := s.offset, s.pauseStart, s.speed;
    var textWidth := measured;
    var needsScroll := textWidth > viewport as real - Padding;
    if needsScroll {
      var maxScroll := textWidth - viewport as real + Padding;
      if speed <= 0.0 && maxScroll > 0.0 {
        var available := durationMs as real * 0.9 - pauseMs as real;
        if available > 100.0 {
          speed := maxScroll / (available / 1000.0);
        } else {
          speed := maxScroll * 2.0;
        }
      }
      if pauseStart > 0 {
        if now - pauseStart >= pauseMs {
          pauseStart := 0;
        }
      } else if offset < maxScroll {
        var delta := speed * (now - last) as real / 1000.0;
        offset := offset + delta;
        if offset > maxScroll {
          offset := maxScroll;
        }
      }
    }
    r := ScrollState(offset, needsScroll, textWidth, pauseStart, speed);
  }
}
