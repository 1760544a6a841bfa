/**
 The host widget (components/OptionsPLChart.tsx): it holds the two inputs and
 the hovered price, and runs the whole build into its svg whenever one of the
 effect's dependencies changes. React's scheduling is replaced by explicit
 calls: `Mount` for the first render, `SetInputs` for a change of the shared
 inputs, `MouseMove` and `MouseOut` for the pointer events of the capture
 rectangle.
 */
module OptionsPLChart {
  import opened ChartTypes
  import opened LinearScale
  import opened ChartUtils
  import opened ChartBuilder

  /** The payoff path: the three breakpoints the profit line and the areas are drawn through. */
  function PayoffPath(paid: real, profit: real): (data: seq<Sample>)
    ensures var pts := GeneratePoints(paid, profit);
            |data| == |pts| && forall i :: 0 <= i < |data| ==> data[i] == Sample(pts[i].x, pts[i].y)
    ensures paid > 0.0 && profit > 0.0 ==> data[0].price < data[1].price < data[2].price
  {
    [Sample(paid * 0.2, -paid), Sample(paid, 0.0), Sample(paid + profit, profit)]
  }

  /** For a positive cost and target the loss area runs from Max Loss to Breakeven and the gain
      area from Breakeven to Max Profit; the Breakeven sample belongs to both. */
  lemma PayoffPathSplit(paid: real, profit: real)
    requires paid > 0.0 && profit > 0.0
    ensures var data := PayoffPath(paid, profit);
            Split(data, LossSide) == data[..2] && Split(data, GainSide) == data[1..]
  {
    var data := PayoffPath(paid, profit);
    assert data[1..][1..] == data[2..] && data[2..][1..] == [];
    assert Split(data[2..], LossSide) == [] && Split(data[2..], GainSide) == data[2..];
    assert Split(data[1..], LossSide) == [data[1]] && Split(data[1..], GainSide) == data[1..];
  }

  /** Where drawPoints puts the marker groups in the static layer: after the two axes, the profit
      line, the two areas and the target line. */
  const MarkersStart: nat := 6

  /** What the build draws before the markers: axes, profit line, areas and target line. */
  function ScenePrefix(dims: Dimensions, paid: real, profit: real): seq<Primitive> {
    var s := CreateScales(dims, paid, profit);
    var data := PayoffPath(paid, profit);
    AxisLines(dims, s) + [Polyline(ScaledLine(s, data))] + AreaPaths(s, data) + [TargetLine(s, paid, profit)]
  }

  /** The static layer a build draws, in the order of the builder calls. */
  function StaticScene(dims: Dimensions, paid: real, profit: real): seq<Primitive> {
    ScenePrefix(dims, paid, profit) + PointGroups(dims, CreateScales(dims, paid, profit), GeneratePoints(paid, profit))
    + [TitleFor(dims)]
  }

  lemma ScenePrefixHasNoMarkers(dims: Dimensions, paid: real, profit: real)
    ensures |ScenePrefix(dims, paid, profit)| == MarkersStart && CountPointGroups(ScenePrefix(dims, paid, profit)) == 0
  {
    NoPointGroupsCounted(ScenePrefix(dims, paid, profit));
  }

  /** The static layer holds each drawing step's primitives exactly once, the three marker groups
      at MarkersStart, and no marker group carries an opacity yet. */
  lemma StaticSceneLayout(dims: Dimensions, paid: real, profit: real)
    ensures var scene := StaticScene(dims, paid, profit);
            var s := CreateScales(dims, paid, profit);
            |scene| == MarkersStart + 4
            && scene[..2] == AxisLines(dims, s)
            && scene[2] == Polyline(ScaledLine(s, PayoffPath(paid, profit)))
            && scene[3..5] == AreaPaths(s, PayoffPath(paid, profit))
            && scene[5] == TargetLine(s, paid, profit)
            && scene[MarkersStart..MarkersStart + 3] == PointGroups(dims, s, GeneratePoints(paid, profit))
            && scene[MarkersStart + 3] == TitleFor(dims)
            && SelectsPointGroups(scene, Selection(MarkersStart, 3))
            && CountPointGroups(scene[..MarkersStart]) == 0
            && Unstyled(scene) == scene
  {
    var scene := StaticScene(dims, paid, profit);
    ScenePrefixHasNoMarkers(dims, paid, profit);
    assert scene[..MarkersStart] == ScenePrefix(dims, paid, profit);
    var u := Unstyled(scene);
    forall k | 0 <= k < |scene|
      ensures u[k] == scene[k]
    {
    }
  }

  /** The part of a view the effect's dependency list watches, as written: the hovered price and both inputs. */
  function EffectDeps(currentPrice: real, paid: real, profit: real): seq<real> {
    [currentPrice, paid, profit]
  }

  /** One run of the build sequence into an svg: a new builder clears the surface, the steps draw
      axes, profit line, areas, target line, markers and title into the static group, then the
      dynamic elements, then the capture rectangle with its handlers. */
  method Build(svg: Surface, paid: real, profit: real) returns (b: ChartBuilder)
    modifies svg
    ensures fresh(b) && fresh(b.staticGroup) && fresh(b.dynamicGroup) && b.Valid()
    ensures b.svg == svg && b.dimensions == DefaultDimensions && b.scales == CreateScales(DefaultDimensions, paid, profit)
    ensures svg.children == [G(b.staticGroup), G(b.dynamicGroup), CaptureRect(DefaultDimensions.width, DefaultDimensions.height)]
    ensures b.staticGroup.items == StaticScene(DefaultDimensions, paid, profit)
    ensures b.dynamicGroup.items == DynamicElementsFor(DefaultDimensions, b.scales)
    ensures b.handlers == Some(Handlers(paid, profit, DynamicRefs(0, 1, 2), Selection(MarkersStart, 3)))
  {
    var chartBuilder := new ChartBuilder(svg, DefaultDimensions, paid, profit);
    ScenePrefixHasNoMarkers(DefaultDimensions, paid, profit);
    chartBuilder.DrawAxes();
    var data := PayoffPath(paid, profit);
    chartBuilder.DrawProfitLine(data);
    chartBuilder.DrawArea(data);
    chartBuilder.DrawProfitLine2(paid, profit);
    assert chartBuilder.staticGroup.items == ScenePrefix(DefaultDimensions, paid, profit);
    var points := GeneratePoints(paid, profit);
    var pointGroups := chartBuilder.DrawPoints(points);
    chartBuilder.DrawTitle();
    var dynamicElements := chartBuilder.CreateDynamicElements();
    chartBuilder.SetupMouseInteraction(paid, profit, dynamicElements, pointGroups);
    b := chartBuilder;
  }

  /** On the default canvas for paid 100 and profit 50, a mousemove at pixel 300 reads price 75.
      As written that changes the effect's dependencies (the price starts at 150), so the chart is
      rebuilt and the new dynamic layer has the guide hidden and both readouts empty, where the
      handler had just shown them. */
  lemma MoveRebuildClearsHover()
    ensures var s := CreateScales(DefaultDimensions, 100.0, 50.0);
            var price := Invert(s.xScale, 300.0);
            var rebuilt := DynamicElementsFor(DefaultDimensions, s);
            var hovered := Hovered(rebuilt, Handlers(100.0, 50.0, DynamicRefs(0, 1, 2), Selection(MarkersStart, 3)), s, 300.0);
            price == 75.0
            && EffectDeps(price, 100.0, 50.0) != EffectDeps(100.0 + 50.0, 100.0, 50.0)
            && hovered[2].opacity == Some(1.0) && hovered[0].content == Some(PLReadout(false, -25.0))
            && rebuilt[2].opacity == Some(0.0) && rebuilt[0].content == None && rebuilt[1].content == None
  {
    var s := CreateScales(DefaultDimensions, 100.0, 50.0);
    assert Invert(s.xScale, 300.0) == 0.0 + (300.0 - 40.0) * (150.0 - 0.0) / (560.0 - 40.0);
  }

  /** The props and state of the mounted component. */
  class Chart {
    const svgRef: Surface?
    var userPaid: real
    var userProfit: real
    var currentPrice: real
    /** The builder whose groups and handlers are on the surface now. */
    var builder: ChartBuilder?

    /** Exactly one chart, for the current inputs, is on the surface: the surface holds its static
        group, its dynamic group and its capture rectangle and nothing else, and the static group
        holds one scene, up to the markers' opacities. */
    ghost predicate Valid()
      reads this, svgRef, builder, if builder != null then {builder.staticGroup, builder.dynamicGroup} else {}
    {
      (svgRef == null <==> builder == null)
      && (builder != null ==>
            builder.svg == svgRef && builder.Valid()
            && builder.dimensions == DefaultDimensions
            && builder.scales == CreateScales(DefaultDimensions, userPaid, userProfit)
            && builder.handlers == Some(Handlers(userPaid, userProfit, DynamicRefs(0, 1, 2), Selection(MarkersStart, 3)))
            && svgRef.children
               == [G(builder.staticGroup), G(builder.dynamicGroup), CaptureRect(DefaultDimensions.width, DefaultDimensions.height)]
            && Unstyled(builder.staticGroup.items) == StaticScene(DefaultDimensions, userPaid, userProfit)
            && |builder.dynamicGroup.items| == 3)
    }

    /** The surface exactly as a build leaves it, with fresh groups. */
    ghost predicate JustBuilt()
      reads this, svgRef, builder, if builder != null then {builder.staticGroup, builder.dynamicGroup} else {}
    {
      Valid() && builder != null
      && builder.staticGroup.items == StaticScene(DefaultDimensions, userPaid, userProfit)
      && builder.dynamicGroup.items == DynamicElementsFor(DefaultDimensions, CreateScales(DefaultDimensions, userPaid, userProfit))
    }

    /** The first render: the hovered price starts at paid + profit, then the effect runs. */
    constructor Mount(svgRef: Surface?, userPaid: real, userProfit: real)
      modifies svgRef
      ensures Valid() && this.svgRef == svgRef
      ensures this.userPaid == userPaid && this.userProfit == userProfit && currentPrice == userPaid + userProfit
      ensures svgRef != null ==> JustBuilt() && fresh(builder) && fresh(builder.staticGroup) && fresh(builder.dynamicGroup)
    {
      this.svgRef := svgRef;
      this.userPaid := userPaid;
      this.userProfit := userProfit;
      currentPrice := userPaid + userProfit;
      builder := null;
      new;
      Effect();
    }

    /** The effect body: without a mounted svg nothing happens; otherwise one build runs. */
    method Effect()
      requires svgRef == null ==> builder == null
      modifies this`builder, svgRef
      ensures svgRef == null ==> builder == null
      ensures svgRef != null ==> JustBuilt() && fresh(builder) && fresh(builder.staticGroup) && fresh(builder.dynamicGroup)
    {
      if svgRef == null {
        return;
      }
      builder := Build(svgRef, userPaid, userProfit);
    }

    /** The shared inputs change: the effect reruns exactly when one of its dependencies changed. */
    method SetInputs(paid: real, profit: real)
      requires Valid()
      modifies this`userPaid, this`userProfit, this`builder, svgRef
      ensures Valid() && userPaid == paid && userProfit == profit
      ensures EffectDeps(currentPrice, paid, profit) != EffectDeps(currentPrice, old(userPaid), old(userProfit)) && svgRef != null
              ==> JustBuilt() && fresh(builder) && fresh(builder.staticGroup) && fresh(builder.dynamicGroup)
      ensures EffectDeps(currentPrice, paid, profit) == EffectDeps(currentPrice, old(userPaid), old(userProfit))
              ==> builder == old(builder) && (svgRef != null ==> unchanged(svgRef))
    {
      var before := EffectDeps(currentPrice, userPaid, userProfit);
      userPaid, userProfit := paid, profit;
      if EffectDeps(currentPrice, userPaid, userProfit) != before {
        Effect();
      }
    }

    /** A mousemove over the capture rectangle, as the component is written: the handler updates
        the hover state and calls setCurrentPrice; a new price changes a dependency of the effect,
        which rebuilds the chart from scratch. */
    method MouseMove(xPos: real)
      requires Valid() && builder != null
      modifies this`currentPrice, this`builder, svgRef, builder.staticGroup, builder.dynamicGroup
      ensures Valid()
      ensures currentPrice == Invert(CreateScales(DefaultDimensions, userPaid, userProfit).xScale, xPos)
      ensures userPaid + userProfit != 0.0 ==> Apply(CreateScales(DefaultDimensions, userPaid, userProfit).xScale, currentPrice) == xPos
      ensures currentPrice != old(currentPrice) ==> JustBuilt() && fresh(builder)
      ensures currentPrice == old(currentPrice) ==>
                builder == old(builder)
                && builder.dynamicGroup.items == Hovered(old(builder.dynamicGroup.items), builder.handlers.value, builder.scales, xPos)
                && builder.staticGroup.items
                   == Restyled(old(builder.staticGroup.items), Selection(MarkersStart, 3), ByMarker(currentPrice, userPaid, userProfit))
    {
      var before := EffectDeps(currentPrice, userPaid, userProfit);
      var price := builder.MouseMove(xPos);
      DefaultDimensionsValid();
      if userPaid + userProfit != 0.0 {
        ScalesRoundTrip(DefaultDimensions, userPaid, userProfit, 0.0, xPos);
      }
      UnstyledRestyled(old(builder.staticGroup.items), Selection(MarkersStart, 3), ByMarker(price, userPaid, userProfit));
      currentPrice := price;
      if EffectDeps(currentPrice, userPaid, userProfit) != before {
        Effect();
      }
    }

    /** A mousemove if the effect's dependency list held only the two inputs it reads: the price
        state is updated, no dependency changes, and the hover state the handler drew stays. */
    method MouseMoveInputsOnly(xPos: real)
      requires Valid() && builder != null
      modifies this`currentPrice, builder.staticGroup, builder.dynamicGroup
      ensures Valid() && builder == old(builder)
      ensures currentPrice == Invert(CreateScales(DefaultDimensions, userPaid, userProfit).xScale, xPos)
      ensures userPaid + userProfit != 0.0 ==> Apply(CreateScales(DefaultDimensions, userPaid, userProfit).xScale, currentPrice) == xPos
      ensures builder.dynamicGroup.items == Hovered(old(builder.dynamicGroup.items), builder.handlers.value, builder.scales, xPos)
      ensures builder.staticGroup.items
              == Restyled(old(builder.staticGroup.items), Selection(MarkersStart, 3), ByMarker(currentPrice, userPaid, userProfit))
    {
      var price := builder.MouseMove(xPos);
      DefaultDimensionsValid();
      if userPaid + userProfit != 0.0 {
        ScalesRoundTrip(DefaultDimensions, userPaid, userProfit, 0.0, xPos);
      }
      UnstyledRestyled(old(builder.staticGroup.items), Selection(MarkersStart, 3), ByMarker(price, userPaid, userProfit));
      currentPrice := price;
    }

    /** A mouseout: no state changes, so only the handler's updates happen. */
    method MouseOut()
      requires Valid() && builder != null
      modifies builder.staticGroup, builder.dynamicGroup
      ensures Valid()
      ensures builder.dynamicGroup.items == Unhovered(old(builder.dynamicGroup.items), builder.handlers.value)
      ensures builder.staticGroup.items == Restyled(old(builder.staticGroup.items), Selection(MarkersStart, 3), Uniform(1.0))
    {
      builder.MouseOut();
      UnstyledRestyled(old(builder.staticGroup.items), Selection(MarkersStart, 3), Uniform(1.0));
    }
  }

  /** Mounting and then changing the inputs twice leaves exactly one chart, the one for the last inputs. */
  method TwoInputChanges(svg: Surface)
    modifies svg
    ensures exists sg: Group, dg: Group ::
              svg.children == [G(sg), G(dg), CaptureRect(DefaultDimensions.width, DefaultDimensions.height)]
              && sg.items == StaticScene(DefaultDimensions, 120.0, 80.0)
  {
    var chart := new Chart.Mount(svg, 100.0, 50.0);
    chart.SetInputs(120.0, 50.0);
    chart.SetInputs(120.0, 80.0);
    assert EffectDeps(chart.currentPrice, 120.0, 80.0) != EffectDeps(chart.currentPrice, 120.0, 50.0);
    var b := chart.builder;
    assert svg.children == [G(b.staticGroup), G(b.dynamicGroup), CaptureRect(DefaultDimensions.width, DefaultDimensions.height)];
  }
}
