# Option profit/loss chart — a Dafny model

This project models the core of a small widget that draws the profit/loss chart of one option
position. The position has two inputs, the amount paid and the target profit. The model covers
three pieces of the widget:

- **Scales and markers** (`chart_utils.dfy`, `linear_scale.dfy`). Two linear scales map price
  and profit to pixels, and three marker points are generated: Max Loss, Breakeven and Max Profit.
- **The retained scene** (`chart_builder.dfy`). The svg element (`Surface`) holds a static `<g>`
  group, a dynamic `<g>` group and a capture rectangle. The `ChartBuilder` class appends
  primitives to the groups. Its `MouseMove` and `MouseOut` handlers rewrite the guide line, the
  two readouts and the markers' opacity in place.
- **The host widget** (`options_pl_chart.dfy`). It holds the inputs and the hovered price. It runs
  the whole build into the svg whenever a dependency of its effect changes.

All numbers are Dafny `real`. The d3 linear scale is modelled as its unclamped affine map
`r0 + (v - d0) * (r1 - r0) / (d1 - d0)`, with an explicit inverse. When the domain's two stops
coincide, d3 normalises every value to 0.5, so the model maps the whole domain to the middle of
the range. This keeps both maps total.

Nothing in the code guards against paid + profit == 0, and the model follows the code. Every
lemma that needs invertible scales requires `paid + profit != 0`. `CreateScales` proves that this
is exactly the condition under which both scales are invertible on a valid canvas.

Marker labels and colours are small enums. The source's `label` field is called `name`, because
`label` is a Dafny keyword. An SVG attribute that the code never sets on an element is `None`.

## Model

| member | source | states |
|---|---|---|
| `ChartTypes.DefaultDimensionsValid` | config/index.ts:3-12 | the configured 600 x 400 canvas with margins 80/40/60/40 leaves a non-empty plot in both directions, which is the precondition the mounted chart's mousemove contracts rely on |
| `LinearScale.Apply` | utils/chartUtils.ts:8-16 | d3's unclamped linear map: the result's offset from r0 is to r1 - r0 as v's offset from d0 is to d1 - d0, for any v, also outside the domain; with d0 == d1 the result is the midpoint of r0 and r1 (d3 normalises to 0.5) |
| `LinearScale.Invert` | utils/ChartBuilder.ts:168 | xScale.invert: the same proportion with domain and range exchanged, unclamped; with r0 == r1 the result is the midpoint of d0 and d1 |
| `LinearScale.ApplyEndpoints` | utils/chartUtils.ts:8-16 | a scale with a non-degenerate domain sends its first domain stop to its first range stop and its second to its second |
| `LinearScale.DegenerateIsConstant` | utils/chartUtils.ts:10 | with equal domain stops the scale ignores its argument and gives the middle of the range |
| `LinearScale.InvertApply` | utils/chartUtils.ts:8-16 | invert undoes the map when domain and range both have two distinct stops |
| `LinearScale.ApplyInvert` | utils/chartUtils.ts:8-16 | the map undoes invert under the same condition |
| `LinearScale.Increasing` | utils/chartUtils.ts:8-11 | an ascending domain onto an ascending range gives a strictly increasing map |
| `LinearScale.Decreasing` | utils/chartUtils.ts:13-16 | an ascending domain onto a descending range gives a strictly decreasing map |
| `ChartUtils.CreateScales` | utils/chartUtils.ts:4-18 | both domains have width paid + profit; when that width is nonzero, price 0 maps to the left margin, paid + profit to width - right, -paid to height - bottom and the target profit to the top margin; on a valid canvas each scale is invertible iff paid + profit != 0 |
| `ChartUtils.ScalesRoundTrip` | utils/chartUtils.ts:8-16 | for paid + profit != 0 on a valid canvas, invert(map(v)) = v and map(invert(p)) = p for both scales |
| `ChartUtils.ScalesMonotone` | utils/chartUtils.ts:8-16 | for paid + profit > 0 on a valid canvas, the price scale strictly increases and the profit scale strictly decreases, so profit grows upwards on screen |
| `ChartUtils.GeneratePoints` | utils/chartUtils.ts:20-24 | exactly three points in the order Max Loss, Breakeven, Max Profit; each sits at its label's price and profit (0.2·paid and -paid, paid and 0, paid + profit and profit) and has its label's colour (red, black, green) |
| `ChartUtils.EachLabelOnce` | utils/chartUtils.ts:20-24 | each label names exactly one generated point |
| `ChartUtils.PointsIncreasingInPrice` | utils/chartUtils.ts:21-23 | for paid > 0 and profit > 0 the three points strictly increase in both price and profit |
| `ChartBuilder.Split` | utils/ChartBuilder.ts:69-75 | the filtered samples are no more than the samples, each is among them, and each is on the kept side of zero (profit <= 0 for the loss side, >= 0 for the gain side) |
| `ChartBuilder.OpacityFor` | utils/ChartBuilder.ts:184-189 | a marker's hover opacity is either 1 or 0.3 |
| `ChartBuilder.AxesFrameThePlot` | utils/ChartBuilder.ts:22-42 | drawAxes adds two lines: a horizontal one at y(0) from the left margin to width - right, and a vertical one at x(0), which is the left margin, from the top margin to height - bottom |
| `ChartBuilder.ZeroAxisInsidePlot` | utils/ChartBuilder.ts:26-31 | for non-negative paid and profit with a positive sum, the zero-profit axis lies between the plot's top and bottom edges |
| `ChartBuilder.TargetLineAlongTop` | utils/ChartBuilder.ts:80-89 | the dashed target line is horizontal at the top margin and spans from the left margin to width - right |
| `ChartBuilder.SplitAppend` | utils/ChartBuilder.ts:69-75 | filtering distributes over concatenation, so each area keeps the samples in their original order |
| `ChartBuilder.SplitMembers` | utils/ChartBuilder.ts:69-75 | a sample is in an area's data iff it is among the samples and on that area's side of zero |
| `ChartBuilder.SplitCovers` | utils/ChartBuilder.ts:60-78 | every sample is in at least one area; a zero-profit sample is in both; a loss sample is never in the gain area and a gain sample never in the loss area |
| `ChartBuilder.MarkerGroupsAtPoints` | utils/ChartBuilder.ts:91-115 | one group per point, in input order; its radius-4 circle, read back through the inverse scales, gives the point's own coordinates; its caption stands at the circle's x and at height - bottom + 20 whatever the point's profit; the caption shows the label in the point's colour |
| `ChartBuilder.EmphasisByMarkerPrice` | utils/ChartBuilder.ts:184-189 | at any price, Max Loss is at full opacity iff the price is at most its own marker's price, Breakeven iff the price equals its marker's price, and Max Profit iff the price is at least its marker's price |
| `ChartBuilder.ExtremesNeverBothFull` | utils/ChartBuilder.ts:184-189 | for paid > 0 and profit > 0, Max Loss and Max Profit are never both at full opacity |
| `ChartBuilder.HoverOverMarker` | utils/ChartBuilder.ts:166-189 | pointing at a marker's pixel column gives that marker full opacity; for paid > 0 and profit > 0 the other two markers get 0.3 |
| `ChartBuilder.ReadoutAtMarkers` | utils/ChartBuilder.ts:169 | the readout profit price - paid equals the Breakeven and Max Profit markers' profits; at the Max Loss price it is 0.2·paid above that marker's profit |
| `ChartBuilder.HoverReadout` | utils/ChartBuilder.ts:166-182 | a mousemove at xPos puts the guide at x1 = x2 = xPos with opacity 1 and its y ends unchanged; xPos is the pixel of the price read; the P/L text shows that price's profit with a plus sign and green exactly when the profit is >= 0 and in red otherwise; the price text moves to (xPos, top - 10); every other dynamic element is unchanged |
| `ChartBuilder.HoverThenOut` | utils/ChartBuilder.ts:191-194 | after a mousemove and then a mouseout the guide is hidden but stays at xPos, and both readouts keep what the move wrote |
| `ChartBuilder.RestyleOverrides` | utils/ChartBuilder.ts:184-193 | a later opacity assignment to the marker groups overrides an earlier one, so a mouseout's opacity does not depend on earlier hover prices |
| `ChartBuilder.MouseOutShowsAllMarkers` | utils/ChartBuilder.ts:193 | after a mouseout every selected marker group has opacity 1 and every other static element is unchanged |
| `ChartBuilder.UnstyledRestyled` | utils/ChartBuilder.ts:184-189 | an opacity assignment changes nothing in the static layer except the markers' opacity |
| `ChartBuilder.NoPointGroupsCounted` | utils/ChartBuilder.ts:92-95 | a group that holds no marker groups yet joins none of the points to existing elements, so every point enters |
| `ChartBuilder.ChartBuilder.constructor` | utils/ChartBuilder.ts:13-20 | the svg's children become exactly the fresh static group followed by the fresh dynamic group, both empty, and the scales are those of createScales |
| `ChartBuilder.ChartBuilder.DrawAxes` | utils/ChartBuilder.ts:22-43 | appends the two axis lines to the static group |
| `ChartBuilder.ChartBuilder.DrawProfitLine` | utils/ChartBuilder.ts:45-58 | appends one path through the scaled samples, in order, to the static group |
| `ChartBuilder.ChartBuilder.DrawArea` | utils/ChartBuilder.ts:60-78 | appends the loss area over the samples with profit <= 0, then the gain area over those with profit >= 0, both with baseline y(0) |
| `ChartBuilder.ChartBuilder.DrawProfitLine2` | utils/ChartBuilder.ts:80-89 | appends the dashed line at y(profit) from x(0) to x(paid + profit) |
| `ChartBuilder.ChartBuilder.DrawPoints` | utils/ChartBuilder.ts:91-115 | joins the points by index to the existing marker groups; appends one group per entering point in input order and returns the selection of the new groups |
| `ChartBuilder.ChartBuilder.DrawTitle` | utils/ChartBuilder.ts:117-125 | appends the title text at (width / 2, top / 2 - 10) |
| `ChartBuilder.ChartBuilder.CreateDynamicElements` | utils/ChartBuilder.ts:127-151 | appends to the dynamic group the P/L text at (width / 2, top / 2 + 10), the price text at y(0) - 10 and the guide line from top to height - bottom at opacity 0; returns where the three sit |
| `ChartBuilder.ChartBuilder.SetupMouseInteraction` | utils/ChartBuilder.ts:153-165 | appends a width x height capture rectangle to the svg and attaches handlers that close over paid, profit, the dynamic elements and the marker groups |
| `ChartBuilder.ChartBuilder.MouseMove` | utils/ChartBuilder.ts:166-190 | returns the price xScale.invert(xPos) that it passes to setCurrentPrice; updates the guide, the readouts and each marker's opacity by the label rule; changes only the two groups |
| `ChartBuilder.ChartBuilder.MouseOut` | utils/ChartBuilder.ts:191-194 | sets the guide's opacity to 0 and every marker's opacity to 1; the texts and the guide's position do not change |
| `ChartBuilder.ChartBuilder.SetGroupOpacity` | utils/ChartBuilder.ts:184-193 | sets the opacity of each selected marker group, one group at a time, and leaves every other element as it was |
| `OptionsPLChart.PayoffPath` | components/OptionsPLChart.tsx:22-26 | the payoff data are the generated points' coordinates, in the same order; for paid > 0 and profit > 0 their prices strictly increase |
| `OptionsPLChart.PayoffPathSplit` | components/OptionsPLChart.tsx:22-29 | for paid > 0 and profit > 0 the loss area spans Max Loss to Breakeven and the gain area spans Breakeven to Max Profit, with Breakeven in both |
| `OptionsPLChart.ScenePrefixHasNoMarkers` | components/OptionsPLChart.tsx:20-30 | the six primitives drawn before the markers contain no marker group |
| `OptionsPLChart.StaticSceneLayout` | components/OptionsPLChart.tsx:18-35 | a build's static layer holds, in call order, the axes, the profit line, the two areas, the target line, the three marker groups and the title, each exactly once; no marker carries an opacity yet |
| `OptionsPLChart.Build` | components/OptionsPLChart.tsx:18-39 | afterwards the svg holds exactly [static group, dynamic group, capture rectangle] with fresh groups; the static group holds exactly one scene for the inputs and the dynamic group holds the three fresh dynamic elements, whatever the svg held before |
| `OptionsPLChart.Chart.Mount` | components/OptionsPLChart.tsx:10-16 | the hovered price starts at paid + profit; with a mounted svg one build runs |
| `OptionsPLChart.Chart.Effect` | components/OptionsPLChart.tsx:15-40 | without an svg nothing happens; otherwise the chart is exactly one fresh build for the current inputs |
| `OptionsPLChart.Chart.SetInputs` | components/OptionsPLChart.tsx:40 | the chart is rebuilt when paid or profit changes and left exactly as it was when neither changes; exactly one chart is on the surface afterwards |
| `OptionsPLChart.Chart.MouseMove` | components/OptionsPLChart.tsx:13-40 | as written: the hovered price becomes xScale.invert(xPos); when paid + profit != 0 that price maps back to the pointer column xPos on the configured canvas; a new price reruns the effect and leaves a freshly built chart; an unchanged price leaves the handler's hover updates in place |
| `OptionsPLChart.Chart.MouseMoveInputsOnly` | components/OptionsPLChart.tsx:15-40 | with the effect depending only on paid and profit, a mousemove sets the price to xScale.invert(xPos), which maps back to xPos when paid + profit != 0, keeps the same builder and leaves the handler's hover updates on the surface |
| `OptionsPLChart.Chart.MouseOut` | utils/ChartBuilder.ts:191-194 | a mouseout changes no component state; only the handler's updates happen and one chart stays on the surface |
| `OptionsPLChart.MoveRebuildClearsHover` | components/OptionsPLChart.tsx:40 | with paid 100 and profit 50 on the default canvas, a move to pixel 300 reads price 75; this changes the effect's dependencies, and the rebuilt dynamic layer has the guide hidden and both readouts empty where the handler had just shown them |
| `OptionsPLChart.TwoInputChanges` | components/OptionsPLChart.tsx:15-40 | mounting and then changing the inputs twice leaves exactly one static group, one dynamic group and one capture rectangle on the svg, with the scene of the last inputs |

## Left out

- d3's path-string generation (`d3.line`, `d3.area`) and its selection machinery: a path is the list of its scaled vertices, and a selection is a run of a group's children.
- `d3.pointer`: a pointer event is given directly as its x pixel.
- `Number.toFixed(2)`: a readout carries the number it renders. The P/L readout also carries whether it starts with "+".
- Floating point: all arithmetic is exact over `real`. In particular, the Breakeven test `price === userPaid` is exact equality, and rounding in `invert` is not modelled.
- React and jotai: `useRef`, `useState`, `useEffect` scheduling and the atoms module (atoms/optionsAtoms is not part of this model). They are replaced by explicit calls to `Mount`, `SetInputs`, `MouseMove` and `MouseOut`.
- setCurrentPrice: the `setCurrentPrice` callback is replaced by `MouseMove` returning the price. The host then compares that price with its state, as React's bail-out on an equal value does.
- Presentation-only attributes: stroke colours and widths, area fill tints (kept only as the loss or gain side), dash pattern (kept only as a flag), font sizes, `text-anchor` and the title's wording.
- ChartBuilder.ChartBuilder.constructor: `selectAll('*').remove()` also empties the removed groups themselves. The model only replaces the svg's top-level children, and it leaves a detached group's own list as it was. Nothing in the model reads a detached group.
- ChartBuilder.ChartBuilder.DrawPoints: the data join also rebinds the data of marker groups that already exist. That can only happen when drawPoints runs twice on one builder, which the build never does. The model appends the entering points only.
- drawAxes and drawPoints return d3 selections: drawAxes' return value is unused and left out, and drawPoints returns the selection of new groups as a `Selection`.
- app/page.tsx is page composition only and is not modelled. types/index.ts and config/index.ts are mirrored as datatypes and a constant. A marker's `label` and `color` are strings in the source and enums here.
- Canvas vs plot: `ValidDimensions` (width > left + right, height > top + bottom) is a precondition of the lemmas that need it, not a runtime check.

## Findings

| source | as written | input that shows it | evidently intended | confidence | as-written member | corrected member |
|---|---|---|---|---|---|---|
| components/OptionsPLChart.tsx:40 | the effect lists `currentPrice` as a dependency although its body never reads it; the mousemove handler sets that state, so every move to a new price rebuilds the chart, and the rebuild hides the guide line and empties both readouts that the handler had just drawn | paid 100, profit 50, default canvas: a mousemove at pixel 300 reads price 75, which differs from the initial price 150 | the effect depends on `userPaid` and `userProfit` only, so the hover display stays until the next pointer event | medium (not executed) | `OptionsPLChart.Chart.MouseMove`, `OptionsPLChart.MoveRebuildClearsHover` | `OptionsPLChart.Chart.MouseMoveInputsOnly` |

A related observation is not listed as a finding, because the intent is unclear. The hover readout computes profit as price - paid. The drawn payoff line rises from (0.2·paid, -paid) to (paid, 0). Left of Breakeven, the readout and the line therefore disagree (`ChartBuilder.ReadoutAtMarkers`).
