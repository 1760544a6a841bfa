/**
 The scale pair and the three marker points of one option position
 (utils/chartUtils.ts). `paid` is the amount paid, `profit` the target profit.
 */
module ChartUtils {
  import opened ChartTypes
  import opened LinearScale

  datatype Scales = Scales(xScale: Scale, yScale: Scale)

  /** The Max Loss marker sits at a fixed fraction of the amount paid. */
  const MaxLossRatio: real := 0.2

  /**
   createScales: price in [0, paid + profit] across the plot's width, and
   profit in [-paid, profit] up the plot's height (pixel rows grow downwards,
   so the vertical range runs from the bottom edge to the top edge).
   */
  function CreateScales(dims: Dimensions, paid: real, profit: real): (s: Scales)
    ensures s.xScale.d1 - s.xScale.d0 == paid + profit && s.yScale.d1 - s.yScale.d0 == paid + profit
    ensures paid + profit != 0.0 ==>
              Apply(s.xScale, 0.0) == dims.margin.left
              && Apply(s.xScale, paid + profit) == dims.width - dims.margin.right
              && Apply(s.yScale, -paid) == dims.height - dims.margin.bottom
              && Apply(s.yScale, profit) == dims.margin.top
    ensures ValidDimensions(dims) ==>
              (Invertible(s.xScale) <==> paid + profit != 0.0)
              && (Invertible(s.yScale) <==> paid + profit != 0.0)
  {
    var s := Scales(Scale(0.0, paid + profit, dims.margin.left, dims.width - dims.margin.right),
                    Scale(-paid, profit, dims.height - dims.margin.bottom, dims.margin.top));
    if paid + profit != 0.0 then
      ApplyEndpoints(s.xScale);
      ApplyEndpoints(s.yScale);
      s
    else
      s
  }

  /** Both pixel-to-value inverses of createScales undo their maps, and the other way round. */
  lemma ScalesRoundTrip(dims: Dimensions, paid: real, profit: real, v: real, p: real)
    requires ValidDimensions(dims) && paid + profit != 0.0
    ensures var s := CreateScales(dims, paid, profit);
            Invert(s.xScale, Apply(s.xScale, v)) == v && Apply(s.xScale, Invert(s.xScale, p)) == p
            && Invert(s.yScale, Apply(s.yScale, v)) == v && Apply(s.yScale, Invert(s.yScale, p)) == p
  {
    var s := CreateScales(dims, paid, profit);
    InvertApply(s.xScale, v);
    ApplyInvert(s.xScale, p);
    InvertApply(s.yScale, v);
    ApplyInvert(s.yScale, p);
  }

  /** For a position whose price range is not empty, price grows rightwards and profit grows upwards. */
  lemma ScalesMonotone(dims: Dimensions, paid: real, profit: real, v: real, w: real)
    requires ValidDimensions(dims) && paid + profit > 0.0 && v < w
    ensures var s := CreateScales(dims, paid, profit);
            Apply(s.xScale, v) < Apply(s.xScale, w) && Apply(s.yScale, v) > Apply(s.yScale, w)
  {
    var s := CreateScales(dims, paid, profit);
    Increasing(s.xScale, v, w);
    Decreasing(s.yScale, v, w);
  }

  /** The price at which each marker stands. */
  function MarkerPrice(l: Label, paid: real, profit: real): real {
    match l
    case MaxLoss => paid * MaxLossRatio
    case Breakeven => paid
    case MaxProfit => paid + profit
  }

  /** The profit each marker shows. */
  function MarkerProfit(l: Label, paid: real, profit: real): real {
    match l
    case MaxLoss => -paid
    case Breakeven => 0.0
    case MaxProfit => profit
  }

  function MarkerColor(l: Label): Color {
    match l
    case MaxLoss => Red
    case Breakeven => Black
    case MaxProfit => Green
  }

  /** The order in which the markers are generated. */
  const MarkerOrder: seq<Label> := [MaxLoss, Breakeven, MaxProfit]

  /**
   generatePoints: the three markers in the fixed order Max Loss, Breakeven,
   Max Profit, each at its label's price and profit and in its label's colour.
   */
  function GeneratePoints(paid: real, profit: real): (r: seq<Point>)
    ensures |r| == |MarkerOrder| == 3
    ensures forall i :: 0 <= i < |r| ==>
              r[i] == Point(MarkerPrice(MarkerOrder[i], paid, profit), MarkerProfit(MarkerOrder[i], paid, profit),
                            MarkerOrder[i], MarkerColor(MarkerOrder[i]))
  {
    [ Point(paid * 0.2, -paid, MaxLoss, Red),
      Point(paid, 0.0, Breakeven, Black),
      Point(paid + profit, profit, MaxProfit, Green) ]
  }

  /** Every label names exactly one generated marker. */
  lemma EachLabelOnce(paid: real, profit: real, l: Label)
    ensures var r := GeneratePoints(paid, profit);
            exists i :: 0 <= i < |r| && r[i].name == l && forall j :: 0 <= j < |r| && r[j].name == l ==> j == i
  {
    var r := GeneratePoints(paid, profit);
    var i := match l case MaxLoss => 0 case Breakeven => 1 case MaxProfit => 2;
    assert r[i].name == l;
  }

  /** For a position with a positive cost and target, the markers run left to right. */
  lemma PointsIncreasingInPrice(paid: real, profit: real)
    requires paid > 0.0 && profit > 0.0
    ensures var r := GeneratePoints(paid, profit);
            r[0].x < r[1].x < r[2].x && r[0].y < r[1].y < r[2].y
  {
  }
}
