/** The immutable viewport snapshot of TerminalState.kt: the bars, the canvas width,
    the number of bars on screen and the horizontal scroll offset, with the bar width
    and the visible window derived from them on every read. */
module TerminalStates {
  import opened Bars
  import opened Rounding

  /** Default of `visibleBarCount` in the data class. */
  const DEFAULT_VISIBLE_BAR_COUNT: int := 100

  /** `bars` is newest-first; `terminalWidth` and `scrollBy` are pixels. */
  datatype TerminalState = TerminalState(
    bars: seq<Bar>,
    terminalWidth: real,
    visibleBarCount: int,
    scrollBy: real
  )

  /** The state `rememberTerminalState` creates: the data class defaults. */
  function Initial(bars: seq<Bar>): TerminalState {
    TerminalState(bars, 0.0, DEFAULT_VISIBLE_BAR_COUNT, 0.0)
  }

  /** Pixels per bar. The source divides by the count; a zero count is excluded
      here, as the reals have no infinity. */
  function BarWidth(s: TerminalState): (w: real)
    requires s.visibleBarCount != 0
    ensures w * s.visibleBarCount as real == s.terminalWidth
    ensures s.terminalWidth > 0.0 && s.visibleBarCount > 0 ==> w > 0.0
    ensures s.terminalWidth >= 0.0 && s.visibleBarCount > 0 ==> w >= 0.0
  {
    s.terminalWidth / s.visibleBarCount as real
  }

  /** The bar width is defined and non-zero, so `scrollBy / barWidth` can be formed. */
  predicate HasBarWidth(s: TerminalState) {
    s.visibleBarCount != 0 && s.terminalWidth != 0.0
  }

  /** First visible index: the scroll offset in bars, rounded, and clamped below at 0.
      Nothing clamps it from above. */
  function StartIndex(s: TerminalState): (i: int)
    requires HasBarWidth(s)
    ensures 0 <= i
    ensures i == 0 <==> s.scrollBy / BarWidth(s) < 0.5
    ensures i > 0 ==> i as real - 0.5 <= s.scrollBy / BarWidth(s) < i as real + 0.5
  {
    var r := RoundToInt(s.scrollBy / BarWidth(s));
    if r < 0 then 0 else r
  }

  /** One past the last visible index: a full screen after the start, clamped above
      at the number of bars. */
  function EndIndex(s: TerminalState): (j: int)
    requires HasBarWidth(s)
    ensures j <= |s.bars| && j <= StartIndex(s) + s.visibleBarCount
    ensures j == |s.bars| || j == StartIndex(s) + s.visibleBarCount
  {
    var e := StartIndex(s) + s.visibleBarCount;
    if e > |s.bars| then |s.bars| else e
  }

  /** `subList(start, end)` does not throw: the start does not pass the end. */
  predicate WindowDefined(s: TerminalState) {
    HasBarWidth(s) && StartIndex(s) <= EndIndex(s)
  }

  /** The slice is defined exactly when the count is positive and the start index
      has not scrolled past the last bar. */
  lemma WindowDefinedIff(s: TerminalState)
    requires HasBarWidth(s)
    ensures WindowDefined(s) <==> s.visibleBarCount > 0 && StartIndex(s) <= |s.bars|
  {
  }

  /** The visible window: the contiguous run of bars from the start index, as many
      as fit on screen or as remain, whichever is fewer. */
  function VisibleBars(s: TerminalState): (v: seq<Bar>)
    requires WindowDefined(s)
    ensures StartIndex(s) + |v| <= |s.bars|
    ensures |v| == if s.visibleBarCount <= |s.bars| - StartIndex(s)
                   then s.visibleBarCount else |s.bars| - StartIndex(s)
    ensures forall k :: 0 <= k < |v| ==> v[k] == s.bars[StartIndex(s) + k]
  {
    s.bars[StartIndex(s)..EndIndex(s)]
  }

  /** Once the canvas has a width, a fresh state shows the newest hundred bars, or
      all of them when there are fewer. */
  lemma InitialWindow(bars: seq<Bar>, width: real)
    requires width > 0.0
    ensures var s := Initial(bars).(terminalWidth := width);
            WindowDefined(s) && StartIndex(s) == 0 &&
            VisibleBars(s) == bars[..if |bars| < DEFAULT_VISIBLE_BAR_COUNT then |bars| else DEFAULT_VISIBLE_BAR_COUNT]
  {
  }
}
