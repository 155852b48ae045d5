/** The price sample the chart draws. The repository's `Bar` class lives in
    app/src/main/java/com/elmirov/terminal/data/model/Bar.kt, which is not part of
    this model; the chart only ever reads its open, high, low and close prices
    (Terminal.kt:65-66 and 75-83), so those are the fields kept here. */
module Bars {

  /** One OHLC sample. Prices are modelled as reals, not as 32-bit floats. */
  datatype Bar = Bar(open: real, high: real, low: real, close: real) {

    /** What a quotes feed is expected to deliver: the low and the high enclose the
        open and the close. The chart does not check this; lemmas that need it say so. */
    predicate WellFormed() {
      low <= open <= high && low <= close <= high
    }
  }
}
