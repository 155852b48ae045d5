/** The two state transitions of Terminal.kt: the pinch/pan handler of the
    `TransformableState` (lines 39-47) and the `onSizeChanged` update (lines 60-62).
    Both replace the remembered `TerminalState` by a copy. */
module Gestures {
  import opened Bars
  import opened Rounding
  import opened RealArith
  import opened TerminalStates

  /** Fewest bars a zoom-in may leave on screen. */
  const MIN_VISIBLE_BAR_COUNT: int := 20

  /** Kotlin's `Int.coerceIn`; it throws when the range is empty. */
  function CoerceIn(x: int, lo: int, hi: int): (r: int)
    requires lo <= hi
    ensures lo <= r <= hi
    ensures lo <= x <= hi ==> r == x
    ensures x < lo ==> r == lo
    ensures hi < x ==> r == hi
  {
    if x < lo then lo else if hi < x then hi else x
  }

  /** Kotlin's `Float.coerceIn`; it throws when the range is empty. */
  function CoerceInReal(x: real, lo: real, hi: real): (r: real)
    requires lo <= hi
    ensures lo <= r <= hi
    ensures lo <= x <= hi ==> r == x
    ensures x < lo ==> r == lo
    ensures hi < x ==> r == hi
  {
    if x < lo then lo else if hi < x then hi else x
  }

  /** Upper end of the scroll range: the width of all bars less one screen. */
  function ScrollBound(s: TerminalState): real
    requires s.visibleBarCount != 0
  {
    |s.bars| as real * BarWidth(s) - s.terminalWidth
  }

  /** The scroll range is the width of the bars that do not fit on one screen. */
  lemma ScrollBoundIsOffscreenWidth(s: TerminalState)
    requires s.visibleBarCount != 0
    ensures ScrollBound(s) == (|s.bars| - s.visibleBarCount) as real * BarWidth(s)
  {
    var w, n, c := BarWidth(s), |s.bars| as real, s.visibleBarCount as real;
    assert (n - c) * w == n * w - w * c;
  }

  /** On the same canvas, fewer bars make wider bars. */
  lemma FewerBarsAreWider(s: TerminalState, t: TerminalState)
    requires 0.0 <= s.terminalWidth == t.terminalWidth
    requires 0 < t.visibleBarCount <= s.visibleBarCount
    ensures BarWidth(s) <= BarWidth(t)
  {
    var ws, c, c' := BarWidth(s), s.visibleBarCount as real, t.visibleBarCount as real;
    MulMonotone(ws, c', c);
    DivAtLeast(s.terminalWidth, c', ws);
  }

  /** The gesture handler runs without throwing: the zoom factor can be divided by,
      the bar width exists, and neither `coerceIn` range is empty. */
  predicate GestureDefined(s: TerminalState, zoomChange: real) {
    zoomChange != 0.0 && s.visibleBarCount != 0 &&
    MIN_VISIBLE_BAR_COUNT <= |s.bars| && 0.0 <= ScrollBound(s)
  }

  /** The bar count the zoom factor asks for, before clamping. */
  function ZoomedCount(s: TerminalState, zoomChange: real): int
    requires zoomChange != 0.0
  {
    RoundToInt(s.visibleBarCount as real / zoomChange)
  }

  /** The state after one pinch/pan event. The scroll range is computed from the
      state before the event, so with the bar width of the old count. */
  function Gesture(s: TerminalState, zoomChange: real, panX: real): (t: TerminalState)
    requires GestureDefined(s, zoomChange)
    ensures t.bars == s.bars && t.terminalWidth == s.terminalWidth
    ensures MIN_VISIBLE_BAR_COUNT <= t.visibleBarCount <= |s.bars|
    ensures 0.0 <= t.scrollBy <= ScrollBound(s)
  {
    var count := CoerceIn(ZoomedCount(s, zoomChange), MIN_VISIBLE_BAR_COUNT, |s.bars|);
    var scroll := CoerceInReal(s.scrollBy + panX, 0.0, ScrollBound(s));
    s.(visibleBarCount := count, scrollBy := scroll)
  }

  /** The rounded count `visibleBarCount / zoomChange` is taken as asked when it is in
      range; otherwise the count stops at 20 or at the number of bars. */
  lemma GestureFollowsZoom(s: TerminalState, zoomChange: real, panX: real)
    requires GestureDefined(s, zoomChange)
    ensures var t, z := Gesture(s, zoomChange, panX), ZoomedCount(s, zoomChange);
            (MIN_VISIBLE_BAR_COUNT <= z <= |s.bars| ==> t.visibleBarCount == z) &&
            (z < MIN_VISIBLE_BAR_COUNT ==> t.visibleBarCount == MIN_VISIBLE_BAR_COUNT) &&
            (|s.bars| < z ==> t.visibleBarCount == |s.bars|)
  {
  }

  /** The pan is added to the offset as it is when that stays in range; otherwise
      the offset stops at the nearer end of the range. */
  lemma GestureFollowsPan(s: TerminalState, zoomChange: real, panX: real)
    requires GestureDefined(s, zoomChange)
    ensures var t := Gesture(s, zoomChange, panX);
            (0.0 <= s.scrollBy + panX <= ScrollBound(s) ==> t.scrollBy == s.scrollBy + panX) &&
            (s.scrollBy + panX < 0.0 ==> t.scrollBy == 0.0) &&
            (ScrollBound(s) < s.scrollBy + panX ==> t.scrollBy == ScrollBound(s))
  {
  }

  /** Spreading the fingers (a factor of at least one) never adds bars to the screen,
      starting from an in-range count. */
  lemma ZoomInNeverIncreasesCount(s: TerminalState, zoomChange: real, panX: real)
    requires GestureDefined(s, zoomChange) && 1.0 <= zoomChange
    requires MIN_VISIBLE_BAR_COUNT <= s.visibleBarCount <= |s.bars|
    ensures Gesture(s, zoomChange, panX).visibleBarCount <= s.visibleBarCount
  {
    var c := s.visibleBarCount as real;
    assert c <= c * zoomChange by {
      assert c * zoomChange - c == c * (zoomChange - 1.0);
    }
    DivAtMost(c, zoomChange, c);
    RoundMonotone(c / zoomChange, c);
    RoundOfInteger(s.visibleBarCount);
  }

  /** Pinching (a positive factor of at most one) never takes bars off the screen,
      starting from an in-range count. */
  lemma ZoomOutNeverDecreasesCount(s: TerminalState, zoomChange: real, panX: real)
    requires GestureDefined(s, zoomChange) && 0.0 < zoomChange <= 1.0
    requires MIN_VISIBLE_BAR_COUNT <= s.visibleBarCount <= |s.bars|
    ensures s.visibleBarCount <= Gesture(s, zoomChange, panX).visibleBarCount
  {
    var c := s.visibleBarCount as real;
    assert c * zoomChange <= c by {
      assert c - c * zoomChange == c * (1.0 - zoomChange);
    }
    DivAtLeast(c, zoomChange, c);
    RoundMonotone(c, c / zoomChange);
    RoundOfInteger(s.visibleBarCount);
  }

  /** The clamping invariants: an in-range count, and an offset that does not scroll
      past the oldest bar. */
  predicate WithinBounds(s: TerminalState) {
    MIN_VISIBLE_BAR_COUNT <= s.visibleBarCount <= |s.bars| &&
    0.0 <= s.scrollBy <= ScrollBound(s)
  }

  /** Within bounds and on a sized canvas, the window is a full screen of bars:
      the slice is defined, and never runs short of the visible count. */
  lemma WithinBoundsWindowIsFull(s: TerminalState)
    requires WithinBounds(s) && 0.0 < s.terminalWidth
    ensures WindowDefined(s)
    ensures StartIndex(s) + s.visibleBarCount <= |s.bars|
    ensures |VisibleBars(s)| == s.visibleBarCount
  {
    var w := BarWidth(s);
    var n := |s.bars| as real;
    var c := s.visibleBarCount as real;
    ScrollBoundIsOffscreenWidth(s);
    DivAtMost(s.scrollBy, w, n - c);
    RoundMonotone(s.scrollBy / w, n - c);
    RoundOfInteger(|s.bars| - s.visibleBarCount);
  }

  /** A zoom-in keeps both invariants: the count shrinks or stays, so the bar width
      grows and the scroll range with it. */
  lemma ZoomInKeepsWithinBounds(s: TerminalState, zoomChange: real, panX: real)
    requires WithinBounds(s) && 0.0 <= s.terminalWidth && 1.0 <= zoomChange
    ensures GestureDefined(s, zoomChange)
    ensures WithinBounds(Gesture(s, zoomChange, panX))
  {
    var t := Gesture(s, zoomChange, panX);
    ZoomInNeverIncreasesCount(s, zoomChange, panX);
    FewerBarsAreWider(s, t);
    ScrollBoundIsOffscreenWidth(s);
    ScrollBoundIsOffscreenWidth(t);
    var n, c, c' := |s.bars| as real, s.visibleBarCount as real, t.visibleBarCount as real;
    MulMonotone(n - c, BarWidth(s), BarWidth(t));
    MulMonotone(BarWidth(t), n - c, n - c');
  }

  /** The offset is not re-clamped against the new count: a zoom-out from the far
      end of the history leaves it past the oldest bar, the window comes out empty,
      and the next draw would take the minimum of no prices. */
  lemma ZoomOutCanEmptyWindow()
    ensures var s := TerminalState(seq(100, _ => Bar(1.0, 2.0, 0.5, 1.5)), 1000.0, 50, 1000.0);
            var t := Gesture(s, 0.5, 0.0);
            WithinBounds(s) && !WithinBounds(t) && WindowDefined(t) && VisibleBars(t) == []
  {
    var s := TerminalState(seq(100, _ => Bar(1.0, 2.0, 0.5, 1.5)), 1000.0, 50, 1000.0);
    assert BarWidth(s) == 20.0;
    assert ScrollBound(s) == 1000.0;
    assert ZoomedCount(s, 0.5) == 100 by { RoundOfInteger(100); }
    var t := Gesture(s, 0.5, 0.0);
    assert t.visibleBarCount == 100 && t.scrollBy == 1000.0;
    assert BarWidth(t) == 10.0;
    assert StartIndex(t) == 100 by { RoundOfInteger(100); }
  }

  /** The scroll range of a zoom-in is still that of the old bar width: with 500
      bars on a 1000-pixel canvas, zooming from 100 to 50 bars doubles the bar width
      to 20, yet a long pan stops at 500 * 10 - 1000 = 4000, not 500 * 20 - 1000. */
  lemma ZoomInScrollRangeUsesOldWidth()
    ensures var s := TerminalState(seq(500, _ => Bar(1.0, 2.0, 0.5, 1.5)), 1000.0, 100, 0.0);
            var t := Gesture(s, 2.0, 10000.0);
            t.visibleBarCount == 50 && BarWidth(t) == 20.0 && t.scrollBy == 4000.0
  {
    var s := TerminalState(seq(500, _ => Bar(1.0, 2.0, 0.5, 1.5)), 1000.0, 100, 0.0);
    assert BarWidth(s) == 10.0;
    assert ScrollBound(s) == 4000.0;
    assert ZoomedCount(s, 2.0) == 50 by { RoundOfInteger(50); }
  }

  /** On a fresh state whose canvas has been sized, the first gesture's scroll range
      is non-empty exactly when there are at least the default hundred bars; with
      fewer, `coerceIn` throws. */
  lemma FirstGestureNeedsDefaultCount(bars: seq<Bar>, width: real, zoomChange: real)
    requires 0.0 < width && zoomChange != 0.0 && MIN_VISIBLE_BAR_COUNT <= |bars|
    ensures GestureDefined(Initial(bars).(terminalWidth := width), zoomChange)
            <==> DEFAULT_VISIBLE_BAR_COUNT <= |bars|
  {
    var s := Initial(bars).(terminalWidth := width);
    ScrollBoundIsOffscreenWidth(s);
    ProductSign((|bars| - DEFAULT_VISIBLE_BAR_COUNT) as real, BarWidth(s));
  }

  /** The state after the canvas reports a new width. The offset is kept as it is. */
  function Resized(s: TerminalState, width: real): (t: TerminalState)
    ensures t.terminalWidth == width
    ensures t.bars == s.bars && t.visibleBarCount == s.visibleBarCount && t.scrollBy == s.scrollBy
  {
    s.(terminalWidth := width)
  }

  /** Reporting the same width twice is the same as reporting it once. */
  lemma ResizeIdempotent(s: TerminalState, width: real)
    ensures Resized(Resized(s, width), width) == Resized(s, width)
  {
  }

  /** Widening the canvas widens the scroll range, so the invariants survive it. */
  lemma WiderKeepsWithinBounds(s: TerminalState, width: real)
    requires WithinBounds(s) && 0.0 <= s.terminalWidth <= width
    ensures WithinBounds(Resized(s, width))
  {
    var t := Resized(s, width);
    var n, c := |s.bars| as real, s.visibleBarCount as real;
    var ws, wt := BarWidth(s), BarWidth(t);
    DivAtLeast(width, c, ws);
    MulNonNegative(n - c, wt - ws);
    assert ScrollBound(t) - ScrollBound(s) == (n - c) * (wt - ws);
  }

  /** Narrowing the canvas is not followed by a re-clamp: the offset can end up past
      the oldest bar, with an empty window. */
  lemma NarrowerCanEmptyWindow()
    ensures var s := TerminalState(seq(100, _ => Bar(1.0, 2.0, 0.5, 1.5)), 1000.0, 50, 1000.0);
            var t := Resized(s, 500.0);
            WithinBounds(s) && !WithinBounds(t) && WindowDefined(t) && VisibleBars(t) == []
  {
    var s := TerminalState(seq(100, _ => Bar(1.0, 2.0, 0.5, 1.5)), 1000.0, 50, 1000.0);
    assert ScrollBound(s) == 1000.0;
    var t := Resized(s, 500.0);
    assert BarWidth(t) == 10.0;
    assert ScrollBound(t) == 500.0;
    assert StartIndex(t) == 100 by { RoundOfInteger(100); }
  }

  /** The composable's view of the chart: the bar list it was called with and the
      state it remembers, which the two handlers replace. */
  class Terminal {
    /** The `bars` parameter of the composable; the remembered state was built from it. */
    const bars: seq<Bar>
    var state: TerminalState

    /** The handlers clamp against the parameter's size; this is the state's size too. */
    ghost predicate Valid()
      reads this
    {
      state.bars == bars
    }

    /** `rememberTerminalState(bars)`: the defaults of the data class. */
    constructor (bars: seq<Bar>)
      ensures this.bars == bars && state == Initial(bars) && Valid()
    {
      this.bars := bars;
      state := Initial(bars);
    }

    /** The `TransformableState` handler for one zoom/pan event. */
    method Transform(zoomChange: real, panX: real)
      requires Valid() && GestureDefined(state, zoomChange)
      modifies this
      ensures Valid() && state == Gesture(old(state), zoomChange, panX)
    {
      var visibleBarCount := CoerceIn(RoundToInt(state.visibleBarCount as real / zoomChange),
                                      MIN_VISIBLE_BAR_COUNT, |bars|);
      var scrollBy := CoerceInReal(state.scrollBy + panX,
                                   0.0, |bars| as real * BarWidth(state) - state.terminalWidth);
      state := state.(visibleBarCount := visibleBarCount, scrollBy := scrollBy);
    }

    /** The `onSizeChanged` handler: the new integer pixel width replaces the old one. */
    method OnSizeChanged(width: nat)
      requires Valid()
      modifies this
      ensures Valid() && state == Resized(old(state), width as real)
    {
      state := state.(terminalWidth := width as real);
    }
  }
}
