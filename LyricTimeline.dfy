/** The timed lyric lines of the Android floating lyric and the pure rules
    for what it shows: the order lines are kept in, which line belongs to a
    playback position, and the text a line is displayed as. */
module LyricTimeline {
  import opened Wrappers

  /** One lyric line: its start time in milliseconds, its text and an
      optional translation. */
  datatype LyricLine = LyricLine(time: int, text: string, translation: Option<string>)

  /** The placeholder shown when there is no current line or it is blank. */
  const Placeholder: string := "♪"

  // ----- Ordering -----

  predicate SortedByTime(s: seq<LyricLine>) {
    forall i, j :: 0 <= i < j < |s| ==> s[i].time <= s[j].time
  }

  /** Insert `x` after every line of the sorted `s` that starts no later. */
  function InsertByTime(s: seq<LyricLine>, x: LyricLine): (r: seq<LyricLine>)
    requires SortedByTime(s)
    ensures |r| == |s| + 1
    ensures r[0] == if s == [] || x.time < s[0].time then x else s[0]
    ensures SortedByTime(r)
    decreases |s|
  {
    if s == [] then [x]
    else if x.time < s[0].time then [x] + s
    else [s[0]] + InsertByTime(s[1..], x)
  }

  lemma {:induction false} InsertByTimePermutation(s: seq<LyricLine>, x: LyricLine)
    requires SortedByTime(s)
    ensures multiset(InsertByTime(s, x)) == multiset(s) + multiset{x}
    decreases |s|
  {
    if s != [] && x.time >= s[0].time {
      InsertByTimePermutation(s[1..], x);
      assert s == [s[0]] + s[1..];
      assert InsertByTime(s, x) == [s[0]] + InsertByTime(s[1..], x);
    }
  }

  /** Lines sorted by time, keeping lines with equal times in their input
      order (a stable sort, as the platform's `sortedBy` is). */
  function SortByTime(s: seq<LyricLine>): (r: seq<LyricLine>)
    ensures SortedByTime(r)
    ensures |r| == |s|
    decreases |s|
  {
    if s == [] then []
    else InsertByTime(SortByTime(s[..|s| - 1]), s[|s| - 1])
  }

  /** Sorting only reorders the lines. */
  lemma {:induction false} SortByTimePermutation(s: seq<LyricLine>)
    ensures multiset(SortByTime(s)) == multiset(s)
    decreases |s|
  {
    if s != [] {
      var init, x := s[..|s| - 1], s[|s| - 1];
      assert s == init + [x];
      SortByTimePermutation(init);
      InsertByTimePermutation(SortByTime(init), x);
    }
  }

  /** The lines of `s` that start at `t`, in their order in `s`. */
  function AtTime(s: seq<LyricLine>, t: int): (r: seq<LyricLine>)
    ensures forall i :: 0 <= i < |r| ==> r[i].time == t
    ensures |r| <= |s|
  {
    if s == [] then []
    else (if s[0].time == t then [s[0]] else []) + AtTime(s[1..], t)
  }

  lemma {:induction false} AtTimeAppend(a: seq<LyricLine>, b: seq<LyricLine>, t: int)
    ensures AtTime(a + b, t) == AtTime(a, t) + AtTime(b, t)
    decreases |a|
  {
    if a == [] {
      assert a + b == b;
    } else {
      assert (a + b)[1..] == a[1..] + b;
      AtTimeAppend(a[1..], b, t);
    }
  }

  lemma AtTimeSingle(y: LyricLine, t: int)
    ensures AtTime([y], t) == if y.time == t then [y] else []
  {
    assert [y][1..] == [];
  }

  lemma {:induction false} AtTimeNoneLater(s: seq<LyricLine>, t: int)
    requires forall i :: 0 <= i < |s| ==> s[i].time > t
    ensures AtTime(s, t) == []
    decreases |s|
  {
    if s != [] {
      AtTimeNoneLater(s[1..], t);
    }
  }

  lemma InsertAtTimeFront(s: seq<LyricLine>, x: LyricLine, t: int)
    requires SortedByTime(s) && s != [] && x.time < s[0].time
    ensures AtTime([x] + s, t) == AtTime(s, t) + (if x.time == t then [x] else [])
  {
    AtTimeSingle(x, t);
    AtTimeAppend([x], s, t);
    if x.time == t {
      assert forall i :: 0 <= i < |s| ==> s[0].time <= s[i].time;
      AtTimeNoneLater(s, t);
    }
  }

  /** Putting the same line in front of two sequences keeps a relation between
      their lines at `t`. */
  lemma AtTimeBehindHead(h: LyricLine, a: seq<LyricLine>, b: seq<LyricLine>, t: int, tail: seq<LyricLine>)
    requires AtTime(a, t) == AtTime(b, t) + tail
    ensures AtTime([h] + a, t) == AtTime([h] + b, t) + tail
  {
    AtTimeAppend([h], a, t);
    AtTimeAppend([h], b, t);
  }

  /** An inserted line comes after every earlier line with the same time. */
  lemma {:induction false} InsertAtTime(s: seq<LyricLine>, x: LyricLine, t: int)
    requires SortedByTime(s)
    ensures AtTime(InsertByTime(s, x), t) == AtTime(s, t) + (if x.time == t then [x] else [])
    decreases |s|
  {
    if s == [] {
      AtTimeSingle(x, t);
    } else if x.time < s[0].time {
      InsertAtTimeFront(s, x, t);
    } else {
      var rest := InsertByTime(s[1..], x);
      assert InsertByTime(s, x) == [s[0]] + rest;
      InsertAtTime(s[1..], x, t);
      AtTimeBehindHead(s[0], rest, s[1..], t, if x.time == t then [x] else []);
      assert [s[0]] + s[1..] == s;
    }
  }

  /** Sorting is stable: the lines sharing a time keep their relative order. */
  lemma {:induction false} SortByTimeStable(s: seq<LyricLine>, t: int)
    ensures AtTime(SortByTime(s), t) == AtTime(s, t)
    decreases |s|
  {
    if s != [] {
      var init, x := s[..|s| - 1], s[|s| - 1];
      assert s == init + [x];
      SortByTimeStable(init, t);
      InsertAtTime(SortByTime(init), x, t);
      AtTimeAppend(init, [x], t);
    }
  }

  /** Lines already in order are kept as they are. */
  lemma {:induction false} SortByTimeKeepsSorted(s: seq<LyricLine>)
    requires SortedByTime(s)
    ensures SortByTime(s) == s
    decreases |s|
  {
    if s != [] {
      var init, x := s[..|s| - 1], s[|s| - 1];
      assert s == init + [x];
      SortByTimeKeepsSorted(init);
      InsertAfterAll(init, x);
    }
  }

  lemma {:induction false} InsertAfterAll(s: seq<LyricLine>, x: LyricLine)
    requires SortedByTime(s)
    requires forall i :: 0 <= i < |s| ==> s[i].time <= x.time
    ensures InsertByTime(s, x) == s + [x]
    decreases |s|
  {
    if s != [] {
      InsertAfterAll(s[1..], x);
      assert s == [s[0]] + s[1..];
    }
  }

  // ----- The line at a position -----

  /** How many leading lines start at or before `position`. */
  function LeadingAtOrBefore(s: seq<LyricLine>, position: int): (n: nat)
    ensures n <= |s|
    ensures forall j :: 0 <= j < n ==> s[j].time <= position
    ensures n < |s| ==> s[n].time > position
  {
    if s == [] || s[0].time > position then 0
    else 1 + LeadingAtOrBefore(s[1..], position)
  }

  /** The index of the line shown at `position`: scanning from the start, the
      last line reached before the first one that starts later; -1 when the
      first line starts later (or there are no lines). */
  function LineIndexAt(s: seq<LyricLine>, position: int): (k: int)
    ensures -1 <= k < |s|
    ensures forall j :: 0 <= j <= k ==> s[j].time <= position
    ensures k + 1 < |s| ==> s[k + 1].time > position
  {
    LeadingAtOrBefore(s, position) - 1
  }

  /** The two properties above single out the index. */
  lemma {:induction false} LineIndexUnique(s: seq<LyricLine>, position: int, k: int)
    requires -1 <= k < |s|
    requires forall j :: 0 <= j <= k ==> s[j].time <= position
    requires k + 1 < |s| ==> s[k + 1].time > position
    ensures k == LineIndexAt(s, position)
    decreases |s|
  {
    if s != [] && s[0].time <= position {
      assert k >= 0;
      LineIndexUnique(s[1..], position, k - 1);
    }
  }

  /** On sorted lines the index is the last line starting at or before the
      position: every later line starts after it. */
  lemma LineIndexIsLast(s: seq<LyricLine>, position: int)
    requires SortedByTime(s)
    ensures var k := LineIndexAt(s, position);
            forall j :: k < j < |s| ==> s[j].time > position
  {
    var k := LineIndexAt(s, position);
    forall j | k < j < |s|
      ensures s[j].time > position
    {
      assert s[k + 1].time <= s[j].time;
    }
  }

  lemma {:induction false} LeadingMonotone(s: seq<LyricLine>, p1: int, p2: int)
    requires p1 <= p2
    ensures LeadingAtOrBefore(s, p1) <= LeadingAtOrBefore(s, p2)
    decreases |s|
  {
    if s != [] && s[0].time <= p1 {
      LeadingMonotone(s[1..], p1, p2);
    }
  }

  /** A later position never shows an earlier line (the scan needs no order
      for this). */
  lemma LineIndexMonotone(s: seq<LyricLine>, p1: int, p2: int)
    requires p1 <= p2
    ensures LineIndexAt(s, p1) <= LineIndexAt(s, p2)
  {
    LeadingMonotone(s, p1, p2);
  }

  /** The scan of `updateCurrentLyric`: it stops at the first later line. */
  method ScanLineIndex(s: seq<LyricLine>, position: int) returns (index: int)
    ensures index == LineIndexAt(s, position)
  {
    index := -1;
    var i := 0;
    while i < |s|
      invariant 0 <= i <= |s|
      invariant index == i - 1
      invariant forall j :: 0 <= j < i ==> s[j].time <= position
      decreases |s| - i
    {
      if s[i].time <= position {
        index := i;
      } else {
        break;
      }
      i := i + 1;
    }
    LineIndexUnique(s, position, index);
  }

  // ----- Displayed text -----

  /** Kotlin's `Char.isWhitespace` on the JVM: Java whitespace or a Unicode
      space, line or paragraph separator. */
  predicate IsWhitespace(c: char) {
    var n := c as int;
    (9 <= n <= 13) || (28 <= n <= 32) || n == 0xA0 || n == 0x1680 ||
    (0x2000 <= n <= 0x200A) || n == 0x2028 || n == 0x2029 || n == 0x202F ||
    n == 0x205F || n == 0x3000
  }

  function TrimStart(s: string): (r: string)
    ensures |r| <= |s| && r == s[|s| - |r|..]
    ensures r != [] ==> !IsWhitespace(r[0])
    ensures forall i :: 0 <= i < |s| - |r| ==> IsWhitespace(s[i])
  {
    if s != [] && IsWhitespace(s[0]) then TrimStart(s[1..]) else s
  }

  function TrimEnd(s: string): (r: string)
    ensures |r| <= |s| && r == s[..|r|]
    ensures r != [] ==> !IsWhitespace(r[|r| - 1])
    ensures forall i :: |r| <= i < |s| ==> IsWhitespace(s[i])
  {
    if s != [] && IsWhitespace(s[|s| - 1]) then TrimEnd(s[..|s| - 1]) else s
  }

  /** `String.trim()`: leading and trailing whitespace removed. */
  function Trim(s: string): (r: string)
    ensures |r| <= |s|
    // both ends of what remains are non-blank
    ensures r != [] ==> !IsWhitespace(r[0]) && !IsWhitespace(r[|r| - 1])
  {
    var a := TrimStart(s);
    var r := TrimEnd(a);
    assert r != [] ==> r[0] == a[0];
    r
  }

  /** Trimming leaves nothing exactly when every character is whitespace. */
  lemma TrimEmptyIffBlank(s: string)
    ensures Trim(s) == [] <==> forall i :: 0 <= i < |s| ==> IsWhitespace(s[i])
  {
    var a := TrimStart(s);
    if Trim(s) == [] {
      // a non-empty `a` starts with a non-blank, which `TrimEnd` keeps
      assert a == [];
    } else {
      assert a != [] && a[0] == s[|s| - |a|];
    }
  }

  /** What `updateLyricText` puts on screen for `text`. */
  function Shown(text: string): (r: string)
    // the text itself or the placeholder (that it is never blank is `ShownNeverBlank`)
    ensures r == text || r == Placeholder
  {
    if Trim(text) == [] then Placeholder else text
  }

  /** Whitespace-only text shows the placeholder; any other text shows as is. */
  lemma ShownRule(text: string)
    ensures (forall i :: 0 <= i < |text| ==> IsWhitespace(text[i])) ==> Shown(text) == Placeholder
    ensures (exists i :: 0 <= i < |text| && !IsWhitespace(text[i])) ==> Shown(text) == text
  {
    TrimEmptyIffBlank(text);
  }

  /** The view never shows blank text. */
  lemma ShownNeverBlank(text: string)
    ensures Trim(Shown(text)) != []
  {
    PlaceholderShown();
  }

  /** The placeholder itself is not blank, so it is shown unchanged. */
  lemma PlaceholderShown()
    ensures Shown(Placeholder) == Placeholder
  {
    ShownRule(Placeholder);
    assert !IsWhitespace(Placeholder[0]);
  }

  /** A line's text, followed on a new line by its translation when it has a
      non-empty one. */
  function LineDisplay(line: LyricLine): (r: string)
    // the line's own text always leads
    ensures line.text <= r
    // anything after it is exactly the translation, on a line of its own
    ensures r == line.text <==> !(line.translation.Some? && line.translation.value != [])
    ensures line.translation.Some? && line.translation.value != [] ==>
              r[|line.text|] == '\n' && r[|line.text| + 1..] == line.translation.value
  {
    match line.translation
    case Some(t) => if t != [] then line.text + "\n" + t else line.text
    case None => line.text
  }

  /** The text chosen for line index `k`: the line's display, or the
      placeholder before the first line. */
  function IndexDisplay(s: seq<LyricLine>, k: int): (r: string)
    ensures 0 <= k < |s| ==> r == LineDisplay(s[k]) && s[k].text <= r
    // a shown translation closes the display, on its own line
    ensures 0 <= k < |s| && s[k].translation.Some? && s[k].translation.value != [] ==>
              r[|r| - |s[k].translation.value| - 1..] == "\n" + s[k].translation.value
    ensures !(0 <= k < |s|) ==> r == Placeholder
  {
    if 0 <= k < |s| then LineDisplay(s[k]) else Placeholder
  }

  /** A line with a non-blank character in its text or in its translation is
      shown exactly as composed: only an entirely blank line turns into the
      placeholder. */
  lemma LineDisplayShown(line: LyricLine)
    requires (exists i :: 0 <= i < |line.text| && !IsWhitespace(line.text[i])) ||
             (line.translation.Some? &&
              exists j :: 0 <= j < |line.translation.value| && !IsWhitespace(line.translation.value[j]))
    ensures Shown(LineDisplay(line)) == LineDisplay(line)
  {
    var r := LineDisplay(line);
    if i :| 0 <= i < |line.text| && !IsWhitespace(line.text[i]) {
      assert r[i] == line.text[i];
    } else {
      var tr := line.translation.value;
      var j :| 0 <= j < |tr| && !IsWhitespace(tr[j]);
      assert r[|line.text| + 1..][j] == tr[j];
      assert r[|line.text| + 1 + j] == tr[j];
    }
    ShownRule(r);
  }

  // ----- Current-line refresh -----

  /** What the floating window records and shows about the current line. */
  datatype LineView = LineView(index: int, display: string)

  /** `updateCurrentLyric` on the model state: a new index is recorded, and
      shown when the view exists, only when it differs from the recorded one. */
  function Refresh(v: LineView, s: seq<LyricLine>, position: int, viewShown: bool): (r: LineView)
    ensures r.index == LineIndexAt(s, position)
    ensures v.index == LineIndexAt(s, position) ==> r == v
    ensures v.index != LineIndexAt(s, position) && viewShown ==>
              r.display == Shown(IndexDisplay(s, LineIndexAt(s, position)))
    ensures !viewShown ==> r.display == v.display
  {
    var k := LineIndexAt(s, position);
    if k == v.index then v
    else LineView(k, if viewShown then Shown(IndexDisplay(s, k)) else v.display)
  }

  /** Refreshing twice at the same position is the same as refreshing once. */
  lemma RefreshIdempotent(v: LineView, s: seq<LyricLine>, position: int, viewShown: bool)
    ensures Refresh(Refresh(v, s, position, viewShown), s, position, viewShown) ==
            Refresh(v, s, position, viewShown)
  {
  }

  /** With no lines the placeholder index is recorded whatever the position. */
  lemma RefreshEmpty(v: LineView, position: int, viewShown: bool)
    ensures Refresh(v, [], position, viewShown).index == -1
    ensures v.index != -1 && viewShown ==> Refresh(v, [], position, viewShown).display == Placeholder
  {
  }

  // ----- Alpha -----

  /** `coerceIn(lo, hi)`. */
  function CoerceIn(v: real, lo: real, hi: real): (r: real)
    requires lo <= hi
    ensures lo <= r <= hi
    ensures lo <= v <= hi ==> r == v
    ensures v < lo ==> r == lo
    ensures v > hi ==> r == hi
  {
    if v < lo then lo else if v > hi then hi else v
  }
}
