/**
 The plain data holders of the chart: a marker point, the canvas dimensions
 and the fixed default configuration (types/index.ts, config/index.ts).
 */
module ChartTypes {

  datatype Option<T> = None | Some(value: T)

  /** The three marker labels the chart ever draws ('Max Loss', 'Breakeven', 'Max Profit'). */
  datatype Label = MaxLoss | Breakeven | MaxProfit

  /** The fill colours used for markers and for the P/L readout. */
  datatype Color = Red | Black | Green

  /** A marker point: price on the horizontal axis, profit on the vertical one; `name` is the
      source's `label` field (`label` is a Dafny keyword). */
  datatype Point = Point(x: real, y: real, name: Label, color: Color)

  datatype Margin = Margin(top: real, right: real, bottom: real, left: real)

  datatype Dimensions = Dimensions(width: real, height: real, margin: Margin)

  /** The inset plotting region is not empty in either direction. */
  predicate ValidDimensions(d: Dimensions) {
    d.width > d.margin.left + d.margin.right && d.height > d.margin.top + d.margin.bottom
  }

  /** The configured 600 x 400 canvas with margins top 80, right 40, bottom 60, left 40. */
  const DefaultDimensions: Dimensions := Dimensions(600.0, 400.0, Margin(80.0, 40.0, 60.0, 40.0))

  /** The configured canvas meets the precondition of the hover and round-trip lemmas; the mounted
      chart's methods use it to state that the price they read maps back to the pointer column. */
  lemma DefaultDimensionsValid()
    ensures ValidDimensions(DefaultDimensions)
  {
  }
}
