/** What the chart's canvas draws from one `TerminalState` (Terminal.kt:65-141):
    the price range of the visible window, the price-to-pixel map, one wick and one
    body per bar, and three horizontal price lines. The drawing calls themselves
    belong to the rendering library; here they become the values they are given. */
module Geometry {
  import opened Bars
  import opened Rounding
  import opened RealArith
  import opened TerminalStates

  datatype Color = White | Green | Red

  /** A canvas point, in pixels from the top-left corner (y grows downward). */
  datatype Offset = Offset(x: real, y: real)

  /** The arguments of one `drawLine` call. */
  datatype Line = Line(color: Color, start: Offset, end: Offset, strokeWidth: real)

  /** The vertical map in force while one frame is drawn: the canvas height, the
      lowest low and highest high on screen, and the pixels per price unit. */
  datatype PriceScale = PriceScale(height: real, min: real, max: real, pxPerPoint: real)

  /** A dashed line across the canvas at height `y`, labelled with `price`. */
  datatype PriceLine = PriceLine(price: real, y: real)

  /** `minOf { it.low }`: the lowest low of a non-empty run of bars. */
  function MinLow(bars: seq<Bar>): (m: real)
    requires |bars| > 0
    ensures forall k :: 0 <= k < |bars| ==> m <= bars[k].low
    ensures exists k :: 0 <= k < |bars| && bars[k].low == m
  {
    if |bars| == 1 then bars[0].low
    else
      var rest := MinLow(bars[1..]);
      if bars[0].low <= rest then bars[0].low else rest
  }

  /** `maxOf { it.high }`: the highest high of a non-empty run of bars. */
  function MaxHigh(bars: seq<Bar>): (m: real)
    requires |bars| > 0
    ensures forall k :: 0 <= k < |bars| ==> bars[k].high <= m
    ensures exists k :: 0 <= k < |bars| && bars[k].high == m
  {
    if |bars| == 1 then bars[0].high
    else
      var rest := MaxHigh(bars[1..]);
      if rest <= bars[0].high then bars[0].high else rest
  }

  /** The window has prices (`minOf` and `maxOf` throw on an empty list) and they
      are not flat (`pxPerPoint` divides by the range). */
  predicate HasPriceRange(visible: seq<Bar>) {
    |visible| > 0 && MinLow(visible) != MaxHigh(visible)
  }

  /** A frame can be drawn: the window is defined and has a price range. */
  predicate Drawable(s: TerminalState) {
    WindowDefined(s) && HasPriceRange(VisibleBars(s))
  }

  /** A scale whose pixels per unit stretch the price range over the full height. */
  predicate Fits(ps: PriceScale) {
    ps.min != ps.max && ps.pxPerPoint * (ps.max - ps.min) == ps.height
  }

  /** `min`, `max` and `pxPerPoint` computed from a window of bars. */
  function Scale(visible: seq<Bar>, height: real): (ps: PriceScale)
    requires HasPriceRange(visible)
    ensures ps.height == height && Fits(ps)
    ensures forall k :: 0 <= k < |visible| ==> ps.min <= visible[k].low && visible[k].high <= ps.max
    ensures exists k :: 0 <= k < |visible| && visible[k].low == ps.min
    ensures exists k :: 0 <= k < |visible| && visible[k].high == ps.max
  {
    var min := MinLow(visible);
    var max := MaxHigh(visible);
    var pxPerPoint := height / (max - min);
    DivTimes(height, max - min);
    PriceScale(height, min, max, pxPerPoint)
  }

  /** The scale of one frame: that of the state's visible window. */
  function ScaleOf(s: TerminalState, height: real): PriceScale
    requires Drawable(s)
  {
    Scale(VisibleBars(s), height)
  }

  /** The canvas y of a price. */
  function PriceY(ps: PriceScale, price: real): real {
    ps.height - (price - ps.min) * ps.pxPerPoint
  }

  /** The map sends the lowest low to the bottom edge and the highest high to the top. */
  lemma PriceYEndpoints(ps: PriceScale)
    requires Fits(ps)
    ensures PriceY(ps, ps.min) == ps.height
    ensures PriceY(ps, ps.max) == 0.0
  {
  }

  /** On a canvas with height and a rising range, a higher price is drawn higher up. */
  lemma PriceYStrictlyDecreasing(ps: PriceScale, p: real, q: real)
    requires Fits(ps) && 0.0 < ps.height && ps.min < ps.max && p < q
    ensures PriceY(ps, q) < PriceY(ps, p)
  {
    FactorPositive(ps.pxPerPoint, ps.max - ps.min);
    MulPositive(q - p, ps.pxPerPoint);
    assert PriceY(ps, p) - PriceY(ps, q) == (q - p) * ps.pxPerPoint;
  }

  /** Every price between the lowest low and the highest high lands on the canvas. */
  lemma PriceYOnCanvas(ps: PriceScale, p: real)
    requires Fits(ps) && 0.0 < ps.height && ps.min <= p <= ps.max
    ensures 0.0 <= PriceY(ps, p) <= ps.height
  {
    PriceYEndpoints(ps);
    if p != ps.min { PriceYStrictlyDecreasing(ps, ps.min, p); }
    if p != ps.max { PriceYStrictlyDecreasing(ps, p, ps.max); }
  }

  /** The x of the bar at `index`: the newest bar at the right edge, then one bar
      width further left per step back in time. */
  function BarX(width: real, index: int, barWidth: real): real {
    width - index as real * barWidth
  }

  /** Bar 0 sits at the right edge, neighbours sit one bar width apart, and with a
      positive bar width an older bar is always further left. */
  lemma BarLayout(width: real, barWidth: real, i: int, j: int)
    requires 0.0 < barWidth && i < j
    ensures BarX(width, 0, barWidth) == width
    ensures BarX(width, i, barWidth) - BarX(width, i + 1, barWidth) == barWidth
    ensures BarX(width, j, barWidth) < BarX(width, i, barWidth)
  {
    MulNonNegative((j - i) as real - 1.0, barWidth);
    assert BarX(width, i, barWidth) - BarX(width, j, barWidth) == (j - i) as real * barWidth;
  }

  /** The white wick of a bar: from its low to its high at the bar's x. */
  function Wick(bar: Bar, x: real, ps: PriceScale): Line {
    Line(White, Offset(x, PriceY(ps, bar.low)), Offset(x, PriceY(ps, bar.high)), 1.0)
  }

  /** The body of a bar: from its open to its close, half a bar wide, green when
      the price rose and red otherwise. */
  function Body(bar: Bar, x: real, ps: PriceScale, barWidth: real): Line {
    Line(if bar.open < bar.close then Green else Red,
         Offset(x, PriceY(ps, bar.open)), Offset(x, PriceY(ps, bar.close)),
         barWidth / 2.0)
  }

  /** The shape of one candle on a fitted scale: wick and body share the bar's x,
      the body is green exactly when it is drawn upward (its close above its open
      on screen) and red otherwise, the body is half a bar thick, and for a
      well-formed bar the body lies within the wick. */
  lemma CandleShape(bar: Bar, x: real, ps: PriceScale, barWidth: real)
    requires Fits(ps) && 0.0 < ps.height && ps.min < ps.max
    ensures var wick, body := Wick(bar, x, ps), Body(bar, x, ps, barWidth);
            wick.start.x == wick.end.x == body.start.x == body.end.x == x &&
            (body.color == Green <==> body.end.y < body.start.y) &&
            (body.color == Red <==> bar.close <= bar.open) &&
            body.strokeWidth * 2.0 == barWidth &&
            (bar.WellFormed() ==>
               wick.end.y <= body.start.y <= wick.start.y &&
               wick.end.y <= body.end.y <= wick.start.y)
  {
    if bar.open < bar.close {
      PriceYStrictlyDecreasing(ps, bar.open, bar.close);
    } else if bar.close < bar.open {
      PriceYStrictlyDecreasing(ps, bar.close, bar.open);
    }
    if bar.WellFormed() {
      PriceYMonotone(ps, bar.low, bar.open);
      PriceYMonotone(ps, bar.open, bar.high);
      PriceYMonotone(ps, bar.low, bar.close);
      PriceYMonotone(ps, bar.close, bar.high);
    }
  }

  lemma PriceYMonotone(ps: PriceScale, p: real, q: real)
    requires Fits(ps) && 0.0 < ps.height && ps.min < ps.max && p <= q
    ensures PriceY(ps, q) <= PriceY(ps, p)
  {
    if p < q { PriceYStrictlyDecreasing(ps, p, q); }
  }

  /** Every visible, well-formed bar's wick lies on the canvas, between the top and
      the bottom edge. */
  lemma VisibleWickOnCanvas(s: TerminalState, height: real, k: int)
    requires Drawable(s) && 0.0 < height
    requires 0 <= k < |VisibleBars(s)| && VisibleBars(s)[k].WellFormed()
    ensures var ps, bar := ScaleOf(s, height), VisibleBars(s)[k];
            0.0 <= PriceY(ps, bar.low) <= height && 0.0 <= PriceY(ps, bar.high) <= height
  {
    var ps, bar := ScaleOf(s, height), VisibleBars(s)[k];
    PriceYOnCanvas(ps, bar.low);
    PriceYOnCanvas(ps, bar.high);
  }

  /** The `forEachIndexed` loop: a wick and a body for every bar of the list, on
      screen or not, the bar at `index` placed at `BarX(width, index, barWidth)`. */
  method DrawBars(bars: seq<Bar>, width: real, ps: PriceScale, barWidth: real) returns (lines: seq<Line>)
    ensures |lines| == 2 * |bars|
    ensures forall i :: 0 <= i < |bars| ==>
              lines[2 * i] == Wick(bars[i], BarX(width, i, barWidth), ps) &&
              lines[2 * i + 1] == Body(bars[i], BarX(width, i, barWidth), ps, barWidth)
  {
    lines := [];
    for index := 0 to |bars|
      invariant |lines| == 2 * index
      invariant forall i :: 0 <= i < index ==>
                  lines[2 * i] == Wick(bars[i], BarX(width, i, barWidth), ps) &&
                  lines[2 * i + 1] == Body(bars[i], BarX(width, i, barWidth), ps, barWidth)
    {
      var bar := bars[index];
      var offsetX := width - index as real * barWidth;
      lines := lines + [Wick(bar, offsetX, ps), Body(bar, offsetX, ps, barWidth)];
    }
  }

  /** `drawPricesLine`: the window's highest high at the top edge, the last close at
      its mapped height, and the window's lowest low at the bottom edge. */
  function PriceLines(ps: PriceScale, lastPrice: real): seq<PriceLine> {
    [ PriceLine(ps.max, 0.0),
      PriceLine(lastPrice, ps.height - (lastPrice - ps.min) * ps.pxPerPoint),
      PriceLine(ps.min, ps.height) ]
  }

  /** The two lines placed at fixed heights agree with the price map: each of the
      three lines is drawn where the map puts its price. */
  lemma PriceLinesFollowScale(ps: PriceScale, lastPrice: real)
    requires Fits(ps)
    ensures |PriceLines(ps, lastPrice)| == 3
    ensures forall k :: 0 <= k < 3 ==>
              PriceLines(ps, lastPrice)[k].y == PriceY(ps, PriceLines(ps, lastPrice)[k].price)
  {
    PriceYEndpoints(ps);
  }

  /** The price lines of one frame: the last price is the close of the newest bar of
      the whole list, which exists because the window is not empty. */
  function PriceLinesOf(s: TerminalState, height: real): (lines: seq<PriceLine>)
    requires Drawable(s)
    ensures |lines| == 3
    ensures var ps := ScaleOf(s, height);
            lines[0] == PriceLine(ps.max, 0.0) &&
            lines[1] == PriceLine(s.bars[0].close, PriceY(ps, s.bars[0].close)) &&
            lines[2] == PriceLine(ps.min, height)
  {
    PriceLines(ScaleOf(s, height), s.bars[0].close)
  }

  /** While the newest bar is on screen and well-formed, the last-price line lies
      between the max and min lines. Scrolled back far enough, it may not. */
  lemma LastPriceLineOnCanvas(s: TerminalState, height: real)
    requires Drawable(s) && 0.0 < height
    requires StartIndex(s) == 0 && s.bars[0].WellFormed()
    ensures 0.0 <= PriceLinesOf(s, height)[1].y <= height
  {
    var ps := ScaleOf(s, height);
    assert VisibleBars(s)[0] == s.bars[0];
    PriceYOnCanvas(ps, s.bars[0].close);
  }

  /** The canvas draws the candles shifted right by `scrollBy`; the first visible bar
      then lands within half a bar width of the right edge. */
  lemma FirstVisibleBarNearRightEdge(s: TerminalState, width: real)
    requires 0.0 < s.terminalWidth && 0 < s.visibleBarCount && 0.0 <= s.scrollBy
    ensures var w := BarWidth(s);
            var shifted := BarX(width, StartIndex(s), w) + s.scrollBy;
            width - w / 2.0 <= shifted <= width + w / 2.0
  {
    var w := BarWidth(s);
    var q := s.scrollBy / w;
    var i := StartIndex(s) as real;
    DivAtLeast(s.scrollBy, w, 0.0);
    assert RoundToInt(q) as real == i;
    assert q * w == s.scrollBy;
    assert s.scrollBy - i * w == (q - i) * w;
    MulNonNegative(q - i + 0.5, w);
    MulNonNegative(i - q + 0.5, w);
  }

  /** One pass of the canvas: the scale of the visible window, the candles of all
      bars, and the three price lines. Each candle is on the scale of the window
      and at its bar's place from the right edge. */
  method DrawFrame(s: TerminalState, width: real, height: real)
    returns (candles: seq<Line>, prices: seq<PriceLine>)
    requires Drawable(s)
    ensures |candles| == 2 * |s.bars| && |prices| == 3
    ensures forall i :: 0 <= i < |s.bars| ==>
              candles[2 * i] == Wick(s.bars[i], BarX(width, i, BarWidth(s)), ScaleOf(s, height)) &&
              candles[2 * i + 1] == Body(s.bars[i], BarX(width, i, BarWidth(s)), ScaleOf(s, height), BarWidth(s))
    ensures prices == PriceLinesOf(s, height)
  {
    var ps := ScaleOf(s, height);
    candles := DrawBars(s.bars, width, ps, BarWidth(s));
    prices := PriceLines(ps, s.bars[0].close);
  }
}
