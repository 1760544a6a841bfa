/**
 The retained scene of the chart and the builder that fills it
 (utils/ChartBuilder.ts).

 The svg element is a `Surface` whose top-level children are the two <g>
 groups and the pointer-capture rectangle. Each <g> is a `Group` object whose
 list of primitives the builder appends to in place. The builder keeps the two
 groups it created; the hover handlers it attaches rewrite attributes of the
 dynamic elements and of the marker groups in place.

 d3 draws a path from a datum through a path generator; here a path is the
 list of its scaled vertices. SVG attributes that the source never sets on an
 element are `None`.
 */
module ChartBuilder {
  import opened ChartTypes
  import opened LinearScale
  import opened ChartUtils

  /** One payoff sample [price, profit]. */
  datatype Sample = Sample(price: real, profit: real)

  datatype Pixel = Pixel(x: real, y: real)

  /** A vertex of a filled area: its x, the baseline y0 and the curve's y1. */
  datatype AreaVertex = AreaVertex(x: real, y0: real, y1: real)

  /** Which half of the samples a shaded area keeps: the loss tint or the gain tint. */
  datatype Side = LossSide | GainSide

  /** What a text element displays; the numbers stand for their two-decimal rendering. */
  datatype TextContent =
    | TitleText
    | MarkerCaption(name: Label)
    | PLReadout(plus: bool, amount: real)  // "P/L: ", a "+" when plus, then "$" and the amount
    | PriceReadout(price: real)

  datatype Primitive =
    | Line(x1: Option<real>, y1: real, x2: Option<real>, y2: real, dashed: bool, opacity: Option<real>)
    | Polyline(points: seq<Pixel>)
    | Area(side: Side, vertices: seq<AreaVertex>)
    | Circle(cx: real, cy: real, r: real, color: Color)
    | Text(x: Option<real>, y: real, content: Option<TextContent>, fill: Option<Color>)
    | PointGroup(datum: Point, marker: Primitive, caption: Primitive, groupOpacity: Option<real>)

  /** The class attribute of a <g>: 'static-elements' or 'dynamic-elements'. */
  datatype GroupClass = StaticElements | DynamicElements

  /** An svg <g> element. */
  class Group {
    const role: GroupClass
    var items: seq<Primitive>

    constructor (role: GroupClass)
      ensures this.role == role && items == []
    {
      this.role := role;
      items := [];
    }
  }

  datatype SvgChild = G(group: Group) | CaptureRect(width: real, height: real)

  /** The <svg> element the chart draws into; it outlives every builder. */
  class Surface {
    var children: seq<SvgChild>

    constructor ()
      ensures children == []
    {
      children := [];
    }
  }

  /** A run of `count` consecutive children of a group starting at `start` (a d3 selection). */
  datatype Selection = Selection(start: nat, count: nat)

  /** Where the P/L text, the price text and the guide line sit in the dynamic group. */
  datatype DynamicRefs = DynamicRefs(plText: nat, priceText: nat, verticalLine: nat)

  /** What the mousemove and mouseout handlers close over. */
  datatype Handlers = Handlers(userPaid: real, userProfit: real, dyn: DynamicRefs, points: Selection)

  predicate SelectsPointGroups(items: seq<Primitive>, sel: Selection) {
    sel.start + sel.count <= |items|
    && forall k :: sel.start <= k < sel.start + sel.count ==> items[k].PointGroup?
  }

  predicate RefsDynamic(items: seq<Primitive>, d: DynamicRefs) {
    d.plText < |items| && d.priceText < |items| && d.verticalLine < |items|
    && d.plText != d.priceText
    && items[d.plText].Text? && items[d.priceText].Text? && items[d.verticalLine].Line?
  }

  // ---------------------------------------------------------------------------
  // What each drawing step appends

  /** drawAxes: a horizontal line at profit 0 across the plot, a vertical one at price 0 down it. */
  function AxisLines(dims: Dimensions, s: Scales): seq<Primitive> {
    var y0 := Apply(s.yScale, 0.0);
    var x0 := Apply(s.xScale, 0.0);
    [ Line(Some(dims.margin.left), y0, Some(dims.width - dims.margin.right), y0, false, None),
      Line(Some(x0), dims.margin.top, Some(x0), dims.height - dims.margin.bottom, false, None) ]
  }

  /** The vertices d3.line draws through for the samples. */
  function ScaledLine(s: Scales, data: seq<Sample>): seq<Pixel> {
    seq(|data|, i requires 0 <= i < |data| => Pixel(Apply(s.xScale, data[i].price), Apply(s.yScale, data[i].profit)))
  }

  /** The vertices d3.area fills between, with the baseline at profit 0. */
  function ScaledArea(s: Scales, data: seq<Sample>): seq<AreaVertex> {
    seq(|data|, i requires 0 <= i < |data| =>
      AreaVertex(Apply(s.xScale, data[i].price), Apply(s.yScale, 0.0), Apply(s.yScale, data[i].profit)))
  }

  predicate OnSide(side: Side, d: Sample) {
    match side
    case LossSide => d.profit <= 0.0
    case GainSide => d.profit >= 0.0
  }

  /** data.filter(d => d[1] <= 0) for the loss side and data.filter(d => d[1] >= 0) for the gain side. */
  function Split(data: seq<Sample>, side: Side): (r: seq<Sample>)
    ensures |r| <= |data|
    ensures forall i :: 0 <= i < |r| ==> OnSide(side, r[i]) && r[i] in data
  {
    if data == [] then []
    else
      var rest := Split(data[1..], side);
      if OnSide(side, data[0]) then [data[0]] + rest else rest
  }

  /** drawArea: the loss-tinted area over the samples with profit <= 0, then the gain-tinted one. */
  function AreaPaths(s: Scales, data: seq<Sample>): seq<Primitive> {
    [ Area(LossSide, ScaledArea(s, Split(data, LossSide))),
      Area(GainSide, ScaledArea(s, Split(data, GainSide))) ]
  }

  /** drawProfitLine2: the dashed target line at the target profit, from price 0 to paid + profit. */
  function TargetLine(s: Scales, paid: real, profit: real): Primitive {
    var y := Apply(s.yScale, profit);
    Line(Some(Apply(s.xScale, 0.0)), y, Some(Apply(s.xScale, paid + profit)), y, true, None)
  }

  /** One marker group: a radius-4 circle at the point, its caption on the row under the plot. */
  function PointGroupFor(dims: Dimensions, s: Scales, p: Point): Primitive {
    var x := Apply(s.xScale, p.x);
    PointGroup(p,
               Circle(x, Apply(s.yScale, p.y), 4.0, p.color),
               Text(Some(x), dims.height - dims.margin.bottom + 20.0, Some(MarkerCaption(p.name)), Some(p.color)),
               None)
  }

  function PointGroups(dims: Dimensions, s: Scales, ps: seq<Point>): seq<Primitive> {
    seq(|ps|, i requires 0 <= i < |ps| => PointGroupFor(dims, s, ps[i]))
  }

  /** How many '.point-group' elements a group already holds. */
  function CountPointGroups(items: seq<Primitive>): nat {
    if items == [] then 0
    else (if items[0].PointGroup? then 1 else 0) + CountPointGroups(items[1..])
  }

  /** The enter selection of a data join by index: the data beyond the existing elements. */
  function Entering(points: seq<Point>, existing: nat): seq<Point> {
    if existing < |points| then points[existing..] else []
  }

  /** drawTitle: the title text centred above the plot. */
  function TitleFor(dims: Dimensions): Primitive {
    Text(Some(dims.width / 2.0), dims.margin.top / 2.0 - 10.0, Some(TitleText), None)
  }

  /** createDynamicElements: the P/L text, the price text and the hidden guide line. */
  function DynamicElementsFor(dims: Dimensions, s: Scales): seq<Primitive> {
    [ Text(Some(dims.width / 2.0), dims.margin.top / 2.0 + 10.0, None, None),
      Text(None, Apply(s.yScale, 0.0) - 10.0, None, None),
      Line(None, dims.margin.top, None, dims.height - dims.margin.bottom, false, Some(0.0)) ]
  }

  // ---------------------------------------------------------------------------
  // What the handlers change

  /** The profit the readout shows at a price: the price less the amount paid. */
  function ProfitAt(paid: real, price: real): real {
    price - paid
  }

  /** The opacity a marker gets while the pointer is at `price`. */
  function OpacityFor(name: Label, price: real, paid: real, profit: real): (o: real)
    ensures o == 1.0 || o == 0.3
  {
    if name == MaxLoss && price <= paid * 0.2 then 1.0
    else if name == Breakeven && price == paid then 1.0
    else if name == MaxProfit && price >= paid + profit then 1.0
    else 0.3
  }

  /** The two opacity assignments of the handlers: one value for all, or the per-marker rule. */
  datatype OpacityRule = Uniform(value: real) | ByMarker(price: real, paid: real, profit: real)

  function RuleOpacity(rule: OpacityRule, p: Point): real {
    match rule
    case Uniform(v) => v
    case ByMarker(price, paid, profit) => OpacityFor(p.name, price, paid, profit)
  }

  function WithOpacity(g: Primitive, rule: OpacityRule): Primitive {
    match g
    case PointGroup(d, m, c, _) => PointGroup(d, m, c, Some(RuleOpacity(rule, d)))
    case _ => g
  }

  /** pointGroups.attr('opacity', ...): every selected group gets its opacity, nothing else changes. */
  function Restyled(items: seq<Primitive>, sel: Selection, rule: OpacityRule): seq<Primitive> {
    seq(|items|, k requires 0 <= k < |items| =>
      if sel.start <= k < sel.start + sel.count then WithOpacity(items[k], rule) else items[k])
  }

  function PLTextFor(t: Primitive, profit: real): Primitive
    requires t.Text?
  {
    t.(content := Some(PLReadout(profit >= 0.0, profit)), fill := Some(if profit >= 0.0 then Green else Red))
  }

  /** The dynamic group after a mousemove at pixel xPos. */
  function Hovered(items: seq<Primitive>, h: Handlers, s: Scales, xPos: real): seq<Primitive>
    requires RefsDynamic(items, h.dyn)
  {
    var price := Invert(s.xScale, xPos);
    var d := h.dyn;
    items[d.verticalLine := items[d.verticalLine].(x1 := Some(xPos), x2 := Some(xPos), opacity := Some(1.0))]
         [d.plText := PLTextFor(items[d.plText], ProfitAt(h.userPaid, price))]
         [d.priceText := items[d.priceText].(content := Some(PriceReadout(price)), x := Some(xPos),
                                             y := Apply(s.yScale, h.userProfit) - 10.0)]
  }

  /** The dynamic group after a mouseout: only the guide line's opacity changes. */
  function Unhovered(items: seq<Primitive>, h: Handlers): seq<Primitive>
    requires RefsDynamic(items, h.dyn)
  {
    items[h.dyn.verticalLine := items[h.dyn.verticalLine].(opacity := Some(0.0))]
  }

  // ---------------------------------------------------------------------------
  // Properties of the scene

  /** The horizontal axis crosses the plot at profit 0; the vertical axis stands at price 0, the plot's left edge. */
  lemma AxesFrameThePlot(dims: Dimensions, paid: real, profit: real)
    requires paid + profit != 0.0
    ensures var s := CreateScales(dims, paid, profit);
            var a := AxisLines(dims, s);
            |a| == 2
            && a[0].y1 == a[0].y2 == Apply(s.yScale, 0.0)
            && a[0].x1 == Some(dims.margin.left) && a[0].x2 == Some(dims.width - dims.margin.right)
            && a[1].x1 == a[1].x2 == Some(dims.margin.left)
            && a[1].y1 == dims.margin.top && a[1].y2 == dims.height - dims.margin.bottom
  {
  }

  /** For a non-negative cost and target the zero-profit axis lies within the plot's height. */
  lemma ZeroAxisInsidePlot(dims: Dimensions, paid: real, profit: real)
    requires ValidDimensions(dims) && paid >= 0.0 && profit >= 0.0 && paid + profit > 0.0
    ensures var s := CreateScales(dims, paid, profit);
            dims.margin.top <= Apply(s.yScale, 0.0) <= dims.height - dims.margin.bottom
  {
    var s := CreateScales(dims, paid, profit);
    var bottom, top := dims.height - dims.margin.bottom, dims.margin.top;
    var t := paid / (paid + profit);
    assert 0.0 <= t <= 1.0;
    assert Apply(s.yScale, 0.0) == bottom - t * (bottom - top);
    FractionOfGap(t, bottom - top);
  }

  lemma FractionOfGap(t: real, gap: real)
    requires 0.0 <= t <= 1.0 && gap >= 0.0
    ensures 0.0 <= t * gap <= gap
  {
    assert gap - t * gap == (1.0 - t) * gap;
  }

  /** The dashed target line runs along the plot's top edge, across the plot's whole width. */
  lemma TargetLineAlongTop(dims: Dimensions, paid: real, profit: real)
    requires paid + profit != 0.0
    ensures TargetLine(CreateScales(dims, paid, profit), paid, profit)
            == Line(Some(dims.margin.left), dims.margin.top, Some(dims.width - dims.margin.right), dims.margin.top, true, None)
  {
  }

  /** Filtering distributes over concatenation, so each area keeps its samples in their original order. */
  lemma {:induction false} SplitAppend(a: seq<Sample>, b: seq<Sample>, side: Side)
    ensures Split(a + b, side) == Split(a, side) + Split(b, side)
  {
    if a == [] {
      assert a + b == b;
    } else {
      assert (a + b)[1..] == a[1..] + b;
      SplitAppend(a[1..], b, side);
    }
  }

  /** An area keeps a sample exactly when the sample is in the data and on the area's side of zero. */
  lemma {:induction false} SplitMembers(data: seq<Sample>, side: Side, d: Sample)
    ensures d in Split(data, side) <==> d in data && OnSide(side, d)
  {
    if data != [] {
      SplitMembers(data[1..], side, d);
      assert data == [data[0]] + data[1..];
    }
  }

  /** Every sample is shaded by at least one area; a sample with profit 0 is shaded by both. */
  lemma SplitCovers(data: seq<Sample>, d: Sample)
    requires d in data
    ensures d in Split(data, LossSide) || d in Split(data, GainSide)
    ensures d.profit == 0.0 ==> d in Split(data, LossSide) && d in Split(data, GainSide)
    ensures d.profit < 0.0 ==> d !in Split(data, GainSide)
    ensures d.profit > 0.0 ==> d !in Split(data, LossSide)
  {
    SplitMembers(data, LossSide, d);
    SplitMembers(data, GainSide, d);
  }

  /** Each marker circle, read back through the inverse scales, gives the marker's own coordinates;
      every caption sits on the same row under the plot, whatever the marker's profit. */
  lemma MarkerGroupsAtPoints(dims: Dimensions, paid: real, profit: real, points: seq<Point>, i: nat)
    requires ValidDimensions(dims) && paid + profit != 0.0 && i < |points|
    ensures var s := CreateScales(dims, paid, profit);
            var g := PointGroups(dims, s, points)[i];
            |PointGroups(dims, s, points)| == |points|
            && g.PointGroup? && g.datum == points[i] && g.groupOpacity == None
            && g.marker.Circle? && g.marker.r == 4.0 && g.marker.color == points[i].color
            && Invert(s.xScale, g.marker.cx) == points[i].x && Invert(s.yScale, g.marker.cy) == points[i].y
            && g.caption.Text? && g.caption.x == Some(g.marker.cx)
            && g.caption.y == dims.height - dims.margin.bottom + 20.0
            && g.caption.content == Some(MarkerCaption(points[i].name)) && g.caption.fill == Some(points[i].color)
  {
    ScalesRoundTrip(dims, paid, profit, points[i].x, 0.0);
    ScalesRoundTrip(dims, paid, profit, points[i].y, 0.0);
  }

  /** The handler's rule keys each marker to the price generatePoints put it at. */
  lemma EmphasisByMarkerPrice(paid: real, profit: real, price: real, i: nat)
    requires i < 3
    ensures var p := GeneratePoints(paid, profit)[i];
            (OpacityFor(p.name, price, paid, profit) == 1.0)
            <==> (match p.name
                  case MaxLoss => price <= p.x
                  case Breakeven => price == p.x
                  case MaxProfit => price >= p.x)
  {
  }

  /** For a positive cost and target the two extreme markers are never both at full opacity. */
  lemma ExtremesNeverBothFull(paid: real, profit: real, price: real)
    requires paid > 0.0 && profit > 0.0
    ensures OpacityFor(MaxLoss, price, paid, profit) == 0.3 || OpacityFor(MaxProfit, price, paid, profit) == 0.3
  {
  }

  /** Pointing at a marker's pixel column gives full opacity to that marker and, for a positive
      cost and target, dims the other two. */
  lemma HoverOverMarker(dims: Dimensions, paid: real, profit: real, i: nat, j: nat)
    requires ValidDimensions(dims) && paid + profit != 0.0 && i < 3 && j < 3
    ensures var s := CreateScales(dims, paid, profit);
            var pts := GeneratePoints(paid, profit);
            var price := Invert(s.xScale, Apply(s.xScale, pts[i].x));
            OpacityFor(pts[i].name, price, paid, profit) == 1.0
            && (paid > 0.0 && profit > 0.0 && j != i ==> OpacityFor(pts[j].name, price, paid, profit) == 0.3)
  {
    var pts := GeneratePoints(paid, profit);
    ScalesRoundTrip(dims, paid, profit, pts[i].x, 0.0);
  }

  /** The readout's profit agrees with the Breakeven and Max Profit markers, but at the Max Loss
      marker's price it reads a loss of 80% of the amount paid where the marker shows all of it. */
  lemma ReadoutAtMarkers(paid: real, profit: real)
    ensures var pts := GeneratePoints(paid, profit);
            ProfitAt(paid, pts[1].x) == pts[1].y && ProfitAt(paid, pts[2].x) == pts[2].y
            && ProfitAt(paid, pts[0].x) == pts[0].y + paid * MaxLossRatio
  {
  }

  /** A mousemove at xPos shows the guide at xPos, which is the pixel of the price it reads; the P/L
      readout carries a plus sign and green exactly when that price's profit is not negative; the
      price readout sits 10 pixels above the plot; nothing else in the dynamic group changes. */
  lemma HoverReadout(dims: Dimensions, items: seq<Primitive>, h: Handlers, xPos: real)
    requires ValidDimensions(dims) && h.userPaid + h.userProfit != 0.0 && RefsDynamic(items, h.dyn)
    ensures var s := CreateScales(dims, h.userPaid, h.userProfit);
            var r := Hovered(items, h, s, xPos);
            var price := Invert(s.xScale, xPos);
            var profit := price - h.userPaid;
            var d := h.dyn;
            |r| == |items| && RefsDynamic(r, d)
            && r[d.verticalLine].x1 == r[d.verticalLine].x2 == Some(xPos) && r[d.verticalLine].opacity == Some(1.0)
            && r[d.verticalLine].y1 == items[d.verticalLine].y1 && r[d.verticalLine].y2 == items[d.verticalLine].y2
            && Apply(s.xScale, price) == xPos
            && r[d.plText].content == Some(PLReadout(profit >= 0.0, profit))
            && (r[d.plText].fill == Some(Green) <==> profit >= 0.0)
            && (r[d.plText].fill == Some(Red) <==> profit < 0.0)
            && r[d.priceText].content == Some(PriceReadout(price))
            && r[d.priceText].x == Some(xPos) && r[d.priceText].y == dims.margin.top - 10.0
            && forall k :: 0 <= k < |items| && k != d.verticalLine && k != d.plText && k != d.priceText ==> r[k] == items[k]
  {
    var s := CreateScales(dims, h.userPaid, h.userProfit);
    ApplyInvert(s.xScale, xPos);
  }

  /** After a mousemove and a mouseout the guide is hidden at the hovered position and both
      readouts keep what the move wrote. */
  lemma HoverThenOut(items: seq<Primitive>, h: Handlers, s: Scales, xPos: real)
    requires RefsDynamic(items, h.dyn)
    ensures var moved := Hovered(items, h, s, xPos);
            RefsDynamic(moved, h.dyn)
            && var out := Unhovered(moved, h);
            out[h.dyn.verticalLine].opacity == Some(0.0)
            && out[h.dyn.verticalLine].x1 == out[h.dyn.verticalLine].x2 == Some(xPos)
            && out[h.dyn.plText] == moved[h.dyn.plText] && out[h.dyn.priceText] == moved[h.dyn.priceText]
  {
  }

  /** A later opacity assignment overrides an earlier one, so a mouseout restores full opacity
      whatever price the pointer was at before. */
  lemma RestyleOverrides(items: seq<Primitive>, sel: Selection, first: OpacityRule, second: OpacityRule)
    ensures Restyled(Restyled(items, sel, first), sel, second) == Restyled(items, sel, second)
  {
    var a := Restyled(Restyled(items, sel, first), sel, second);
    var b := Restyled(items, sel, second);
    forall k | 0 <= k < |items|
      ensures a[k] == b[k]
    {
      if sel.start <= k < sel.start + sel.count {
        match items[k]
        case PointGroup(_, _, _, _) =>
        case _ =>
      }
    }
  }

  /** After a mouseout every selected marker group is at opacity 1 and every other element is untouched. */
  lemma MouseOutShowsAllMarkers(items: seq<Primitive>, sel: Selection)
    requires SelectsPointGroups(items, sel)
    ensures var r := Restyled(items, sel, Uniform(1.0));
            |r| == |items|
            && (forall k :: sel.start <= k < sel.start + sel.count ==>
                 r[k] == items[k].(groupOpacity := Some(1.0)))
            && (forall k :: 0 <= k < |items| && !(sel.start <= k < sel.start + sel.count) ==> r[k] == items[k])
  {
  }

  /** A marker group with its opacity attribute removed; every other primitive as it is. */
  function Unstyle(g: Primitive): Primitive {
    match g
    case PointGroup(d, m, c, _) => PointGroup(d, m, c, None)
    case _ => g
  }

  function Unstyled(items: seq<Primitive>): seq<Primitive> {
    seq(|items|, k requires 0 <= k < |items| => Unstyle(items[k]))
  }

  /** An opacity assignment changes nothing but opacity: the scene's shapes, positions and texts stay. */
  lemma UnstyledRestyled(items: seq<Primitive>, sel: Selection, rule: OpacityRule)
    ensures Unstyled(Restyled(items, sel, rule)) == Unstyled(items)
  {
    var a, b := Unstyled(Restyled(items, sel, rule)), Unstyled(items);
    forall k | 0 <= k < |items|
      ensures a[k] == b[k]
    {
      match items[k]
      case PointGroup(_, _, _, _) =>
      case _ =>
    }
  }

  /** A group without marker groups enters every point of a join. */
  lemma {:induction false} NoPointGroupsCounted(items: seq<Primitive>)
    requires forall k :: 0 <= k < |items| ==> !items[k].PointGroup?
    ensures CountPointGroups(items) == 0
  {
    if items != [] {
      NoPointGroupsCounted(items[1..]);
    }
  }

  // ---------------------------------------------------------------------------
  // The builder

  class ChartBuilder {
    const svg: Surface
    const dimensions: Dimensions
    const scales: Scales
    const staticGroup: Group
    const dynamicGroup: Group
    /** The handlers of the capture rectangle, once setupMouseInteraction has run. */
    var handlers: Option<Handlers>

    ghost predicate Valid()
      reads this, staticGroup, dynamicGroup
    {
      staticGroup != dynamicGroup
      && staticGroup.role == StaticElements && dynamicGroup.role == DynamicElements
      && (handlers.Some? ==>
            SelectsPointGroups(staticGroup.items, handlers.value.points)
            && RefsDynamic(dynamicGroup.items, handlers.value.dyn))
    }

    /** Removes everything under the svg, then appends the static group and the dynamic group. */
    constructor (svgRef: Surface, dimensions: Dimensions, userPaid: real, userProfit: real)
      modifies svgRef
      ensures Valid() && fresh(staticGroup) && fresh(dynamicGroup)
      ensures svg == svgRef && this.dimensions == dimensions
      ensures scales == CreateScales(dimensions, userPaid, userProfit)
      ensures staticGroup.items == [] && dynamicGroup.items == [] && handlers == None
      ensures svgRef.children == [G(staticGroup), G(dynamicGroup)]
    {
      svg := svgRef;
      this.dimensions := dimensions;
      scales := CreateScales(dimensions, userPaid, userProfit);
      staticGroup := new Group(StaticElements);
      dynamicGroup := new Group(DynamicElements);
      handlers := None;
      new;
      svgRef.children := [];
      svgRef.children := svgRef.children + [G(staticGroup)];
      svgRef.children := svgRef.children + [G(dynamicGroup)];
    }

    method DrawAxes()
      requires Valid()
      modifies staticGroup
      ensures Valid()
      ensures staticGroup.items == old(staticGroup.items) + AxisLines(dimensions, scales)
    {
      var y0 := Apply(scales.yScale, 0.0);
      var x0 := Apply(scales.xScale, 0.0);
      var m := dimensions.margin;
      staticGroup.items := staticGroup.items + [Line(Some(m.left), y0, Some(dimensions.width - m.right), y0, false, None)];
      staticGroup.items := staticGroup.items + [Line(Some(x0), m.top, Some(x0), dimensions.height - m.bottom, false, None)];
    }

    method DrawProfitLine(data: seq<Sample>)
      requires Valid()
      modifies staticGroup
      ensures Valid()
      ensures staticGroup.items == old(staticGroup.items) + [Polyline(ScaledLine(scales, data))]
    {
      staticGroup.items := staticGroup.items + [Polyline(ScaledLine(scales, data))];
    }

    method DrawArea(data: seq<Sample>)
      requires Valid()
      modifies staticGroup
      ensures Valid()
      ensures staticGroup.items == old(staticGroup.items) + AreaPaths(scales, data)
    {
      staticGroup.items := staticGroup.items + [Area(LossSide, ScaledArea(scales, Split(data, LossSide)))];
      staticGroup.items := staticGroup.items + [Area(GainSide, ScaledArea(scales, Split(data, GainSide)))];
    }

    method DrawProfitLine2(userPaid: real, userProfit: real)
      requires Valid()
      modifies staticGroup
      ensures Valid()
      ensures staticGroup.items == old(staticGroup.items) + [TargetLine(scales, userPaid, userProfit)]
    {
      staticGroup.items := staticGroup.items + [TargetLine(scales, userPaid, userProfit)];
    }

    /** Joins the points to the existing '.point-group' elements and appends a group per entering point. */
    method DrawPoints(points: seq<Point>) returns (pointGroups: Selection)
      requires Valid()
      modifies staticGroup
      ensures Valid()
      ensures var entering := Entering(points, CountPointGroups(old(staticGroup.items)));
              pointGroups == Selection(|old(staticGroup.items)|, |entering|)
              && staticGroup.items == old(staticGroup.items) + PointGroups(dimensions, scales, entering)
      ensures SelectsPointGroups(staticGroup.items, pointGroups)
    {
      var entering := Entering(points, CountPointGroups(staticGroup.items));
      pointGroups := Selection(|staticGroup.items|, |entering|);
      staticGroup.items := staticGroup.items + PointGroups(dimensions, scales, entering);
    }

    method DrawTitle()
      requires Valid()
      modifies staticGroup
      ensures Valid()
      ensures staticGroup.items == old(staticGroup.items) + [TitleFor(dimensions)]
    {
      staticGroup.items := staticGroup.items + [TitleFor(dimensions)];
    }

    method CreateDynamicElements() returns (dyn: DynamicRefs)
      requires Valid()
      modifies dynamicGroup
      ensures Valid()
      ensures dynamicGroup.items == old(dynamicGroup.items) + DynamicElementsFor(dimensions, scales)
      ensures var n := |old(dynamicGroup.items)|; dyn == DynamicRefs(n, n + 1, n + 2)
      ensures RefsDynamic(dynamicGroup.items, dyn)
    {
      var n := |dynamicGroup.items|;
      dynamicGroup.items := dynamicGroup.items + DynamicElementsFor(dimensions, scales);
      dyn := DynamicRefs(n, n + 1, n + 2);
    }

    /** Appends the capture rectangle over the whole canvas and attaches its two handlers. */
    method SetupMouseInteraction(userPaid: real, userProfit: real, dyn: DynamicRefs, pointGroups: Selection)
      requires Valid()
      requires RefsDynamic(dynamicGroup.items, dyn) && SelectsPointGroups(staticGroup.items, pointGroups)
      modifies this, svg
      ensures Valid()
      ensures svg.children == old(svg.children) + [CaptureRect(dimensions.width, dimensions.height)]
      ensures handlers == Some(Handlers(userPaid, userProfit, dyn, pointGroups))
    {
      svg.children := svg.children + [CaptureRect(dimensions.width, dimensions.height)];
      handlers := Some(Handlers(userPaid, userProfit, dyn, pointGroups));
    }

    /** The mousemove handler; it returns the price it passes to setCurrentPrice. */
    method MouseMove(xPos: real) returns (price: real)
      requires Valid() && handlers.Some?
      modifies staticGroup, dynamicGroup
      ensures Valid() && handlers == old(handlers)
      ensures price == Invert(scales.xScale, xPos)
      ensures dynamicGroup.items == Hovered(old(dynamicGroup.items), handlers.value, scales, xPos)
      ensures staticGroup.items
              == Restyled(old(staticGroup.items), handlers.value.points,
                          ByMarker(price, handlers.value.userPaid, handlers.value.userProfit))
    {
      var h := handlers.value;
      var d := h.dyn;
      price := Invert(scales.xScale, xPos);
      var profit := ProfitAt(h.userPaid, price);
      var items := dynamicGroup.items;
      dynamicGroup.items := items[d.verticalLine := items[d.verticalLine].(x1 := Some(xPos), x2 := Some(xPos), opacity := Some(1.0))];
      dynamicGroup.items := dynamicGroup.items[d.plText := PLTextFor(items[d.plText], profit)];
      dynamicGroup.items := dynamicGroup.items[d.priceText := items[d.priceText].(content := Some(PriceReadout(price)),
                                                                               x := Some(xPos),
                                                                               y := Apply(scales.yScale, h.userProfit) - 10.0)];
      SetGroupOpacity(h.points, ByMarker(price, h.userPaid, h.userProfit));
    }

    /** The mouseout handler: hides the guide line and shows every marker at full opacity. */
    method MouseOut()
      requires Valid() && handlers.Some?
      modifies staticGroup, dynamicGroup
      ensures Valid() && handlers == old(handlers)
      ensures dynamicGroup.items == Unhovered(old(dynamicGroup.items), handlers.value)
      ensures staticGroup.items == Restyled(old(staticGroup.items), handlers.value.points, Uniform(1.0))
    {
      var d := handlers.value.dyn;
      dynamicGroup.items := dynamicGroup.items[d.verticalLine := dynamicGroup.items[d.verticalLine].(opacity := Some(0.0))];
      SetGroupOpacity(handlers.value.points, Uniform(1.0));
    }

    /** Sets the opacity attribute of each selected marker group, one group at a time. */
    method SetGroupOpacity(sel: Selection, rule: OpacityRule)
      requires Valid() && SelectsPointGroups(staticGroup.items, sel)
      modifies staticGroup
      ensures Valid()
      ensures staticGroup.items == Restyled(old(staticGroup.items), sel, rule)
    {
      var i := 0;
      while i < sel.count
        invariant 0 <= i <= sel.count
        invariant |staticGroup.items| == |old(staticGroup.items)|
        invariant forall k :: 0 <= k < |staticGroup.items| ==>
                    staticGroup.items[k]
                    == if sel.start <= k < sel.start + i then WithOpacity(old(staticGroup.items)[k], rule)
                       else old(staticGroup.items)[k]
        invariant Valid()
      {
        var k := sel.start + i;
        staticGroup.items := staticGroup.items[k := WithOpacity(staticGroup.items[k], rule)];
        i := i + 1;
      }
    }
  }
}
