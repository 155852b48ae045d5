# Candlestick chart viewport, in Dafny

This project models the viewport and transform engine of the Android candlestick chart `Terminal`. It is a Jetpack Compose canvas that draws OHLC bars, newest first, and that the user can pinch to zoom and drag to scroll. The model covers three parts:

- `TerminalState` (TerminalState.kt). An immutable snapshot of the bar list, the canvas width, the number of bars on screen and the scroll offset. The bar width and the visible window are derived from it on every read.
- The gesture handler and the resize handler of `Terminal` (Terminal.kt). Each replaces the remembered snapshot with a copy.
- The geometry one canvas pass computes from a snapshot (Terminal.kt). This is the price range of the visible window, the price-to-pixel map, a wick and a body for every bar, and three horizontal price lines.

Modules, one concept each:

- `Bars` (bars.dfy): the `Bar` record. Only its open, high, low and close are read by the chart.
- `Rounding` and `RealArith` (numerics.dfy): `roundToInt` as round-half-up, and small facts about real division.
- `TerminalStates` (terminal_state.dfy): the snapshot with its defaults, `barWidth`, the start and end index, and `visibleBars` as a contiguous slice.
- `Gestures` (gestures.dfy): the pinch/pan transition and the resize transition as pure functions. The class `Terminal` holds the remembered state; its methods `Transform` and `OnSizeChanged` update it in place, as the composable's `var terminalState` is reassigned.
- `Geometry` (geometry.dfy): min, max and `pxPerPoint`; the price-to-y map; bar x positions; wick and body lines with the colour rule; the draw loop as a `for` loop that builds the line sequence; and the price lines.

Prices and pixels are reals. Every place where the Kotlin code would throw, or would divide by zero, is a `requires`:

- `subList` with a start past the end;
- `coerceIn` with an empty range;
- `minOf` or `maxOf` on an empty window;
- a zero bar width;
- a flat price range.

Behaviour of the code that the model keeps as written:

- The scroll clamp of a gesture uses the bar width of the count before the gesture, not after it (`ZoomInScrollRangeUsesOldWidth`). A zoom-out can therefore leave the offset past the oldest bar, and the visible window comes out empty (`ZoomOutCanEmptyWindow`).
- Resizing replaces the width and does not re-clamp the offset (`NarrowerCanEmptyWindow`).
- With fewer than 20 bars, the count clamp throws.
- A fresh state keeps the default count of 100 even when there are fewer bars. On a sized canvas, its first gesture then throws unless there are at least 100 bars (`FirstGestureNeedsDefaultCount`).
- The draw loop walks all bars, not only the visible ones. Only the visible window sets the price range.

`BarWidth` and `VisibleBars` are Dafny functions of the four stored fields, so equal states give equal windows by construction.

## Model

| member | source | states |
|---|---|---|
| `Rounding.RoundToInt` | app/src/main/java/com/elmirov/terminal/presentation/TerminalState.kt:24 | the result is the unique integer r with r - 1/2 <= x < r + 1/2 (nearest, ties upward) |
| `TerminalStates.BarWidth` | app/src/main/java/com/elmirov/terminal/presentation/TerminalState.kt:19-20 | bar width times visible count is the terminal width; positive when both are positive |
| `TerminalStates.StartIndex` | app/src/main/java/com/elmirov/terminal/presentation/TerminalState.kt:24 | never negative; 0 exactly when scrollBy/barWidth < 1/2; otherwise within 1/2 of scrollBy/barWidth; no upper clamp |
| `TerminalStates.EndIndex` | app/src/main/java/com/elmirov/terminal/presentation/TerminalState.kt:25 | at most bars.size and at most start + count, and equal to one of the two |
| `TerminalStates.WindowDefinedIff` | app/src/main/java/com/elmirov/terminal/presentation/TerminalState.kt:24-26 | subList is valid exactly when the count is positive and the start index does not pass bars.size |
| `TerminalStates.VisibleBars` | app/src/main/java/com/elmirov/terminal/presentation/TerminalState.kt:22-27 | the window is bars[start + k] for each k, of length min(visibleBarCount, bars.size - start), inside the list |
| `TerminalStates.InitialWindow` | app/src/main/java/com/elmirov/terminal/presentation/TerminalState.kt:13-26 | a fresh state given a positive width shows bars[0..min(100, bars.size)) from index 0 |
| `Gestures.ScrollBoundIsOffscreenWidth` | app/src/main/java/com/elmirov/terminal/presentation/Terminal.kt:44 | `ScrollBound` (bars.size*barWidth - width, the upper end of the scroll `coerceIn`) equals (bars.size - visibleBarCount) * barWidth, the width of the bars off screen |
| `Gestures.FewerBarsAreWider` | app/src/main/java/com/elmirov/terminal/presentation/TerminalState.kt:19-20 | on the same non-negative width, a smaller positive count gives a bar width at least as large |
| `Gestures.Gesture` | app/src/main/java/com/elmirov/terminal/presentation/Terminal.kt:39-47 | bars and width unchanged; count in [20, bars.size]; offset in [0, bars.size*oldBarWidth - width]; both clamps use `CoerceIn`/`CoerceInReal`, Kotlin's `coerceIn` |
| `Gestures.GestureFollowsZoom` | app/src/main/java/com/elmirov/terminal/presentation/Terminal.kt:40-41 | the rounded count visibleBarCount/zoomChange is taken as is when in [20, bars.size], otherwise the count stops at 20 or at bars.size |
| `Gestures.GestureFollowsPan` | app/src/main/java/com/elmirov/terminal/presentation/Terminal.kt:43-44 | the pan is added as is when in range, otherwise the offset stops at 0 or at the bound |
| `Gestures.ZoomInNeverIncreasesCount` | app/src/main/java/com/elmirov/terminal/presentation/Terminal.kt:40-41 | from an in-range count, a factor >= 1 never increases the count |
| `Gestures.ZoomOutNeverDecreasesCount` | app/src/main/java/com/elmirov/terminal/presentation/Terminal.kt:40-41 | from an in-range count, a factor in (0, 1] never decreases the count |
| `Gestures.WithinBoundsWindowIsFull` | app/src/main/java/com/elmirov/terminal/presentation/TerminalState.kt:24-26 | with count and offset inside their clamp ranges on a sized canvas, the slice is defined and holds exactly visibleBarCount bars |
| `Gestures.ZoomInKeepsWithinBounds` | app/src/main/java/com/elmirov/terminal/presentation/Terminal.kt:39-47 | a gesture with factor >= 1 cannot throw and keeps both clamp invariants |
| `Gestures.ZoomOutCanEmptyWindow` | app/src/main/java/com/elmirov/terminal/presentation/Terminal.kt:43-46 | 100 bars, width 1000, 50 bars scrolled to 1000, zoom 0.5: the offset stays at 1000, past the new range, and the window is empty |
| `Gestures.ZoomInScrollRangeUsesOldWidth` | app/src/main/java/com/elmirov/terminal/presentation/Terminal.kt:43-44 | 500 bars, width 1000, zoom 2: count 50, bar width 20, yet a long pan stops at 4000 (old width 10) |
| `Gestures.FirstGestureNeedsDefaultCount` | app/src/main/java/com/elmirov/terminal/presentation/Terminal.kt:43-44 | on a fresh sized state, the gesture's scroll range is non-empty iff there are at least 100 bars |
| `Gestures.Resized` | app/src/main/java/com/elmirov/terminal/presentation/Terminal.kt:60-62 | the width becomes the reported one; bars, count and offset (not re-clamped) are kept |
| `Gestures.ResizeIdempotent` | app/src/main/java/com/elmirov/terminal/presentation/Terminal.kt:60-62 | applying the same resize twice equals applying it once |
| `Gestures.WiderKeepsWithinBounds` | app/src/main/java/com/elmirov/terminal/presentation/Terminal.kt:60-62 | widening the canvas keeps both clamp invariants |
| `Gestures.NarrowerCanEmptyWindow` | app/src/main/java/com/elmirov/terminal/presentation/Terminal.kt:60-62 | halving the width of a state at the end of its range leaves the offset out of range and the window empty |
| `Gestures.Terminal.constructor` | app/src/main/java/com/elmirov/terminal/presentation/TerminalState.kt:30-35 | the remembered state starts with the data class defaults over the composable's bars |
| `Gestures.Terminal.Transform` | app/src/main/java/com/elmirov/terminal/presentation/Terminal.kt:39-47 | the remembered state is replaced by the gesture transition of the old one |
| `Gestures.Terminal.OnSizeChanged` | app/src/main/java/com/elmirov/terminal/presentation/Terminal.kt:60-62 | the remembered state is replaced by the resize transition with the integer width |
| `Geometry.MinLow` | app/src/main/java/com/elmirov/terminal/presentation/Terminal.kt:65 | the result is the low of some bar and at most every bar's low |
| `Geometry.MaxHigh` | app/src/main/java/com/elmirov/terminal/presentation/Terminal.kt:66 | the result is the high of some bar and at least every bar's high |
| `Geometry.Scale` | app/src/main/java/com/elmirov/terminal/presentation/Terminal.kt:65-67 | min is the lowest low of the window and max its highest high (each bounds every bar and is attained); pxPerPoint * (max - min) equals the height |
| `Geometry.PriceYEndpoints` | app/src/main/java/com/elmirov/terminal/presentation/Terminal.kt:75-76 | `PriceY` (the formula height - (p - min) * pxPerPoint) sends min to the bottom edge (height) and max to the top edge (0) |
| `Geometry.PriceYStrictlyDecreasing` | app/src/main/java/com/elmirov/terminal/presentation/Terminal.kt:75-76 | a higher price is drawn strictly higher on the canvas |
| `Geometry.PriceYOnCanvas` | app/src/main/java/com/elmirov/terminal/presentation/Terminal.kt:75-83 | every price in [min, max] maps into [0, height] |
| `Geometry.VisibleWickOnCanvas` | app/src/main/java/com/elmirov/terminal/presentation/Terminal.kt:65-78 | the wick of every visible well-formed bar lies between the top and bottom edges |
| `Geometry.BarLayout` | app/src/main/java/com/elmirov/terminal/presentation/Terminal.kt:70-71 | `BarX` (width - index * barWidth) puts bar 0 at the right edge, neighbours one bar width apart, and older bars strictly further left |
| `Geometry.CandleShape` | app/src/main/java/com/elmirov/terminal/presentation/Terminal.kt:73-85 | of `Wick` (white, low to high, stroke 1) and `Body` (open to close, stroke barWidth/2): they share x; green iff drawn upward, red iff close <= open; a well-formed body lies within its wick |
| `Geometry.DrawBars` | app/src/main/java/com/elmirov/terminal/presentation/Terminal.kt:70-86 | two lines per bar of the whole list, the wick then the body of bar i at x = width - i*barWidth |
| `Geometry.DrawFrame` | app/src/main/java/com/elmirov/terminal/presentation/Terminal.kt:63-98 | the candles of all bars on the visible window's scale, and the three price lines with the newest close |
| `Geometry.PriceLinesFollowScale` | app/src/main/java/com/elmirov/terminal/presentation/Terminal.kt:109-141 | the three lines of `PriceLines` (max at y 0, last price at its mapped y, min at y height) all sit where the price map puts their price |
| `Geometry.PriceLinesOf` | app/src/main/java/com/elmirov/terminal/presentation/Terminal.kt:89-97 | exactly three lines: the window's max at y 0, the close of bars[0] at its mapped y, the window's min at y height |
| `Geometry.LastPriceLineOnCanvas` | app/src/main/java/com/elmirov/terminal/presentation/Terminal.kt:121 | while the newest well-formed bar is on screen, the last-price line lies in [0, height] |
| `Geometry.FirstVisibleBarNearRightEdge` | app/src/main/java/com/elmirov/terminal/presentation/Terminal.kt:69-71 | after the canvas shift by scrollBy, the first visible bar is within half a bar width of the right edge |

## Left out

- Floating point. Prices and pixels are reals, and there is no NaN or infinity. The Kotlin code tolerates a few such cases that the model excludes by `requires`. One is a zero bar width with a negative offset: minus infinity rounds to `Int.MIN_VALUE` and is clamped to 0. Another is a flat price range, which gives an infinite `pxPerPoint`.
- Rounding.RoundToInt: does not saturate at the 32-bit `Int` bounds, and does not throw on NaN, because the model has neither.
- The bar's timestamp: the chart core never reads it.
- The rendering calls: `drawLine`, the dash effect of `drawDashLine`, `drawText`, `TextMeasurer`, `translate`, dp/sp conversion and `price.toString()`. Lines are emitted as values and the translate offset appears only in `FirstVisibleBarNearRightEdge`. Each price line is kept as its price and y; the label's x depends on measured text width.
- `rememberSaveable`, `@Parcelize` and `mutableStateOf`. State restoration is not modelled. The class field stands for the remembered mutable state.
- A recomposition with a different `bars` list. `rememberSaveable` would keep the old state while the handlers read the new list's size. The class fixes the list at construction (`Terminal.Valid`).
- The network clients (KtorClient.kt, ApiService.kt), TerminalViewModel.kt, MainActivity.kt, TerminalScreenState.kt and Result.kt: network I/O, coroutines, Android lifecycle and plain data holders with no viewport logic.
- Time-axis gridlines and time-frame selection: this version of the chart has neither.
