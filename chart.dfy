/**
  The layout arithmetic of DrawGraph: where the plot rectangle, the grid,
  the axes, the histogram bars and the cumulative curve land on a chart
  card. Only the coordinates handed to the GDI calls are modelled. The
  source's doubles are exact reals here; each `(int)` cast is Trunc and
  each `/` between ints is CDiv.
*/
module Chart {
  import opened Wrappers
  import opened Win32

  /** One bin of the grain-size distribution: diameter in millimetres and particle count. */
  datatype Bin = Bin(diameter: real, count: int)

  /** A line from MoveToEx to LineTo. */
  datatype Segment = Segment(from: Point, to: Point)

  /** What is drawn inside the plot, chosen by the chart's title. */
  datatype Figure =
    | NoFigure
    | Histogram(bars: seq<Rect>)    // the rectangles passed to Rectangle
    | Curve(points: seq<Point>)     // the vertices passed to Polyline

  datatype Layout = Layout(plot: Rect, hGrid: seq<Segment>, vGrid: seq<Segment>, axes: seq<Segment>, figure: Figure)

  /** A dataset that would make DrawGraph divide by zero. */
  datatype ChartError = DegenerateDataset

  const HISTOGRAM_TITLE: string := "Grain Size Distribution"
  const CURVE_TITLE: string := "Cumulative Grain Size Curve"

  /** The dataset the window draws (the bins of the sample analysis). */
  const GrainData: seq<Bin> := [
    Bin(0.25, 5), Bin(0.30, 10), Bin(0.35, 20), Bin(0.40, 25), Bin(0.45, 20),
    Bin(0.50, 10), Bin(0.55, 5), Bin(0.60, 3), Bin(0.65, 2), Bin(0.70, 1)]

  /** The diameter axis starts at 0.25 mm and spans 0.45 mm, so it ends at 0.70 mm. */
  const MIN_DIAMETER: real := 0.25
  const DIAMETER_SPAN: real := 0.45

  // ---------------------------------------------------------------------
  // Plot rectangle and grid

  /** The plot rectangle: the card inset by 60 left, 30 right, 50 top and 50 bottom. */
  function PlotArea(x: int, y: int, width: int, height: int): (p: Rect)
    ensures p.right - p.left == width - 90 && p.bottom - p.top == height - 100
    ensures width >= 90 && height >= 100 ==>
      x < p.left <= p.right < x + width && y < p.top <= p.bottom < y + height
  {
    Rect(x + 60, y + 50, x + width - 30, y + height - 50)
  }

  /** The y of horizontal gridline i (of 0..5), counted upward from the bottom. */
  function GridY(p: Rect, i: int): int {
    p.bottom - CDiv(i * (p.bottom - p.top), 5)
  }

  /** The x of vertical gridline i (of 0..10), counted rightward from the left. */
  function GridX(p: Rect, i: int): int {
    p.left + CDiv(i * (p.right - p.left), 10)
  }

  /** Gridline 0 lies on the bottom edge and gridline 5 on the top edge. */
  lemma GridYEnds(p: Rect)
    ensures GridY(p, 0) == p.bottom && GridY(p, 5) == p.top
  {
  }

  /** Gridline 0 lies on the left edge and gridline 10 on the right edge. */
  lemma GridXEnds(p: Rect)
    ensures GridX(p, 0) == p.left && GridX(p, 10) == p.right
  {
  }

  /** Horizontal gridlines climb as i grows and stay inside a non-inverted plot. */
  lemma GridYInside(p: Rect, i: int, j: int)
    requires p.top <= p.bottom && 0 <= i <= j <= 5
    ensures p.top <= GridY(p, j) <= GridY(p, i) <= p.bottom
  {
    var h := p.bottom - p.top;
    assert 0 <= i * h <= j * h <= 5 * h by {
      assert (j - i) * h >= 0 && (5 - j) * h >= 0;
    }
  }

  /** Vertical gridlines move right as i grows and stay inside a non-inverted plot. */
  lemma GridXInside(p: Rect, i: int, j: int)
    requires p.left <= p.right && 0 <= i <= j <= 10
    ensures p.left <= GridX(p, i) <= GridX(p, j) <= p.right
  {
    var w := p.right - p.left;
    assert 0 <= i * w <= j * w <= 10 * w by {
      assert (j - i) * w >= 0 && (10 - j) * w >= 0;
    }
  }

  function HorizontalLine(p: Rect, i: int): Segment {
    Segment(Point(p.left, GridY(p, i)), Point(p.right, GridY(p, i)))
  }

  function VerticalLine(p: Rect, i: int): Segment {
    Segment(Point(GridX(p, i), p.top), Point(GridX(p, i), p.bottom))
  }

  /** The six horizontal gridlines, bottom first. */
  method HorizontalGridlines(p: Rect) returns (lines: seq<Segment>)
    ensures |lines| == 6 && forall i :: 0 <= i < 6 ==> lines[i] == HorizontalLine(p, i)
    ensures lines[0].from.y == p.bottom && lines[5].from.y == p.top
  {
    lines := [];
    for i := 0 to 6
      invariant |lines| == i
      invariant forall k :: 0 <= k < i ==> lines[k] == HorizontalLine(p, k)
    {
      var yPos := p.bottom - CDiv(i * (p.bottom - p.top), 5);
      lines := lines + [Segment(Point(p.left, yPos), Point(p.right, yPos))];
    }
    GridYEnds(p);
  }

  /** The eleven vertical gridlines, leftmost first. */
  method VerticalGridlines(p: Rect) returns (lines: seq<Segment>)
    ensures |lines| == 11 && forall i :: 0 <= i < 11 ==> lines[i] == VerticalLine(p, i)
    ensures lines[0].from.x == p.left && lines[10].from.x == p.right
  {
    lines := [];
    for i := 0 to 11
      invariant |lines| == i
      invariant forall k :: 0 <= k < i ==> lines[k] == VerticalLine(p, k)
    {
      var xPos := p.left + CDiv(i * (p.right - p.left), 10);
      lines := lines + [Segment(Point(xPos, p.top), Point(xPos, p.bottom))];
    }
    GridXEnds(p);
  }

  // ---------------------------------------------------------------------
  // Scaling shared by the bars and the curve

  /** `(int)(f * length)`: a fraction of a pixel length, truncated. */
  function Scale(f: real, length: int): int {
    Trunc(f * length as real)
  }

  /** A fraction in [0, 1] of a length lands in [0, length]. */
  lemma ScaleBounds(f: real, length: int)
    requires 0.0 <= f <= 1.0 && 0 <= length
    ensures 0 <= Scale(f, length) <= length
  {
    MulNonNeg(f, length as real);
    MulLe(f, 1.0, length as real);
    TruncMonotone(f * length as real, length as real);
    TruncOfInt(length);
  }

  /** The whole of a length is the length itself. */
  lemma ScaleWhole(length: int)
    ensures Scale(1.0, length) == length
  {
    TruncOfInt(length);
  }

  /** A larger fraction never gives a shorter length. */
  lemma ScaleMonotone(f: real, f': real, length: int)
    requires f <= f' && 0 <= length
    ensures Scale(f, length) <= Scale(f', length)
  {
    MulLe(f, f', length as real);
    TruncMonotone(f * length as real, f' * length as real);
  }

  /** Where a diameter sits on the diameter axis: 0 at 0.25 mm, 1 at 0.70 mm. */
  function DiameterFraction(diameter: real): (f: real)
    ensures MIN_DIAMETER <= diameter <= MIN_DIAMETER + DIAMETER_SPAN ==> 0.0 <= f <= 1.0
  {
    (diameter - MIN_DIAMETER) / DIAMETER_SPAN
  }

  // ---------------------------------------------------------------------
  // Histogram

  /**
    What the scan in DrawGraph finds: the largest count, or 0 when no count
    is positive (the scan starts from 0).
  */
  function MaxCount(data: seq<Bin>): (m: int)
    ensures 0 <= m
    ensures forall i :: 0 <= i < |data| ==> data[i].count <= m
    ensures m == 0 || exists i :: 0 <= i < |data| && data[i].count == m
  {
    if data == [] then 0
    else
      var m := MaxCount(data[..|data| - 1]);
      if data[|data| - 1].count > m then data[|data| - 1].count else m
  }

  /** The `maxCount` loop of DrawGraph. */
  method ScanMaxCount(data: seq<Bin>) returns (maxCount: int)
    ensures maxCount == MaxCount(data)
  {
    maxCount := 0;
    for i := 0 to |data|
      invariant maxCount == MaxCount(data[..i])
    {
      assert data[..i + 1][..i] == data[..i];
      if data[i].count > maxCount {
        maxCount := data[i].count;
      }
    }
    assert data[..|data|] == data;
  }

  /** Bars are a fifteenth of the plot width. */
  function BarWidth(p: Rect): int {
    CDiv(p.right - p.left, 15)
  }

  /** A bin's bar height: its count over the largest count, times the plot height. */
  function BarHeight(count: int, maxCount: int, plotHeight: int): int
    requires maxCount > 0
  {
    Scale(count as real / maxCount as real, plotHeight)
  }

  /** A bin's bar left edge: the diameter interpolated over the plot width less one bar. */
  function BarLeft(p: Rect, diameter: real): int {
    p.left + Scale(DiameterFraction(diameter), p.right - p.left - BarWidth(p))
  }

  /** The rectangle drawn for one bin, anchored on the plot's bottom edge. */
  function Bar(p: Rect, maxCount: int, b: Bin): Rect
    requires maxCount > 0
  {
    var x := BarLeft(p, b.diameter);
    Rect(x, p.bottom - BarHeight(b.count, maxCount, p.bottom - p.top), x + BarWidth(p), p.bottom)
  }

  /** The bars of a histogram: one per bin, each scaled by the dataset's largest count. */
  ghost predicate BarsOf(p: Rect, data: seq<Bin>, bars: seq<Rect>) {
    |bars| == |data| &&
    forall i :: 0 <= i < |data| ==> MaxCount(data) > 0 && bars[i] == Bar(p, MaxCount(data), data[i])
  }

  predicate NonNegativeCounts(data: seq<Bin>) {
    forall i :: 0 <= i < |data| ==> data[i].count >= 0
  }

  predicate DiametersAscending(data: seq<Bin>) {
    forall i, j :: 0 <= i < j < |data| ==> data[i].diameter <= data[j].diameter
  }

  /** A count between 0 and the largest count gives a bar between 0 and the plot height; the largest gives the full height. */
  lemma BarHeightBounds(count: int, maxCount: int, plotHeight: int)
    requires 0 <= count <= maxCount && 0 < maxCount && 0 <= plotHeight
    ensures 0 <= BarHeight(count, maxCount, plotHeight) <= plotHeight
    ensures count == maxCount ==> BarHeight(count, maxCount, plotHeight) == plotHeight
  {
    DivBounds(count as real, maxCount as real);
    ScaleBounds(count as real / maxCount as real, plotHeight);
    if count == maxCount {
      DivSelf(maxCount as real);
      ScaleWhole(plotHeight);
    }
  }

  /**
    With non-negative counts every bar stands on the plot's bottom edge and
    ends inside the plot, and a bin holding the largest count reaches the
    top edge.
  */
  lemma BarFitsPlot(p: Rect, data: seq<Bin>, i: int)
    requires p.top <= p.bottom && NonNegativeCounts(data)
    requires 0 <= i < |data| && MaxCount(data) > 0
    ensures Bar(p, MaxCount(data), data[i]).bottom == p.bottom
    ensures p.top <= Bar(p, MaxCount(data), data[i]).top <= p.bottom
    ensures data[i].count == MaxCount(data) ==> Bar(p, MaxCount(data), data[i]).top == p.top
  {
    BarHeightBounds(data[i].count, MaxCount(data), p.bottom - p.top);
  }

  /** The bar width never exceeds a non-negative plot width. */
  lemma BarWidthFits(p: Rect)
    requires p.left <= p.right
    ensures 0 <= BarWidth(p) <= p.right - p.left
  {
  }

  /** The first bin (0.25 mm) starts on the plot's left edge. */
  lemma FirstBarOnLeftEdge(p: Rect)
    ensures BarLeft(p, MIN_DIAMETER) == p.left
  {
    TruncOfInt(0);
  }

  /** Bar left edges never move left as the diameter grows. */
  lemma BarLeftMonotone(p: Rect, d: real, d': real)
    requires p.left <= p.right && d <= d'
    ensures BarLeft(p, d) <= BarLeft(p, d')
  {
    BarWidthFits(p);
    ScaleMonotone(DiameterFraction(d), DiameterFraction(d'), p.right - p.left - BarWidth(p));
  }

  /** For a diameter in [0.25, 0.70] the whole bar lies between the plot's left and right edges. */
  lemma BarInsidePlot(p: Rect, d: real)
    requires p.left <= p.right && MIN_DIAMETER <= d <= MIN_DIAMETER + DIAMETER_SPAN
    ensures p.left <= BarLeft(p, d) && BarLeft(p, d) + BarWidth(p) <= p.right
  {
    BarWidthFits(p);
    ScaleBounds(DiameterFraction(d), p.right - p.left - BarWidth(p));
  }

  /** With diameters in ascending order the bars run left to right. */
  lemma BarsInDiameterOrder(p: Rect, data: seq<Bin>, bars: seq<Rect>)
    requires p.left <= p.right && DiametersAscending(data) && BarsOf(p, data, bars)
    ensures forall i, j :: 0 <= i < j < |bars| ==> bars[i].left <= bars[j].left
  {
    forall i, j | 0 <= i < j < |bars|
      ensures bars[i].left <= bars[j].left
    {
      BarLeftMonotone(p, data[i].diameter, data[j].diameter);
    }
  }

  /** The histogram loop of DrawGraph; a non-empty dataset with no positive count divides by zero. */
  method HistogramBars(p: Rect, data: seq<Bin>) returns (r: Result<seq<Rect>, ChartError>)
    ensures r.Failure? <==> data != [] && forall i :: 0 <= i < |data| ==> data[i].count <= 0
    ensures r.Success? ==> BarsOf(p, data, r.value)
  {
    var barWidth := CDiv(p.right - p.left, 15);
    var maxCount := ScanMaxCount(data);
    if data == [] {
      return Success([]);
    }
    if maxCount == 0 {
      return Failure(DegenerateDataset);
    }
    var bars := [];
    for i := 0 to |data|
      invariant |bars| == i
      invariant forall k :: 0 <= k < i ==> bars[k] == Bar(p, maxCount, data[k])
    {
      var barHeight := BarHeight(data[i].count, maxCount, p.bottom - p.top);
      var barX := BarLeft(p, data[i].diameter);
      var barY := p.bottom - barHeight;
      bars := bars + [Rect(barX, barY, barX + barWidth, p.bottom)];
    }
    return Success(bars);
  }

  // ---------------------------------------------------------------------
  // Cumulative curve

  /** The sum of the counts, added left to right. */
  function Total(data: seq<Bin>): int {
    if data == [] then 0 else Total(data[..|data| - 1]) + data[|data| - 1].count
  }

  /** Adding one more bin to a prefix adds its count. */
  lemma TotalStep(data: seq<Bin>, i: int)
    requires 0 <= i < |data|
    ensures Total(data[..i + 1]) == Total(data[..i]) + data[i].count
  {
    assert data[..i + 1][..i] == data[..i];
  }

  /** With non-negative counts a longer prefix never has a smaller total. */
  lemma {:induction false} TotalGrows(data: seq<Bin>, i: int, j: int)
    requires NonNegativeCounts(data) && 0 <= i <= j <= |data|
    ensures 0 <= Total(data[..i]) <= Total(data[..j])
    decreases j
  {
    if j == 0 {
      assert data[..0] == [];
    } else {
      TotalGrows(data, if i == j then j - 1 else i, j - 1);
      TotalStep(data, j - 1);
    }
  }

  /**
    The exact value of `cumulativePercent[i]`: the running count through bin
    i as a percentage of the total.
  */
  function CumulativePercent(data: seq<Bin>, i: int): real
    requires 0 <= i < |data| && Total(data) != 0
  {
    (Total(data[..i + 1]) * 100) as real / Total(data) as real
  }

  /** With non-negative counts the cumulative percentages never fall and stay within [0, 100]. */
  lemma CumulativeNonDecreasing(data: seq<Bin>, i: int, j: int)
    requires NonNegativeCounts(data) && Total(data) != 0 && 0 <= i <= j < |data|
    ensures 0.0 <= CumulativePercent(data, i) <= CumulativePercent(data, j) <= 100.0
  {
    TotalGrows(data, i + 1, j + 1);
    TotalGrows(data, j + 1, |data|);
    assert data[..|data|] == data;
    PercentsOrdered(Total(data[..i + 1]), Total(data[..j + 1]), Total(data));
  }

  /** The last cumulative percentage is exactly 100. */
  lemma CumulativeEndsAtHundred(data: seq<Bin>)
    requires Total(data) != 0
    ensures |data| > 0 && CumulativePercent(data, |data| - 1) == 100.0
  {
    assert data[..|data|] == data;
    PercentOfWhole(Total(data));
  }

  /** The cumulative-percentage loop of DrawGraph; a dataset whose counts sum to zero divides by zero. */
  method CumulativePercents(data: seq<Bin>) returns (r: Result<seq<real>, ChartError>)
    ensures r.Failure? <==> Total(data) == 0
    ensures r.Success? ==>
      |r.value| == |data| && forall i :: 0 <= i < |data| ==> r.value[i] == CumulativePercent(data, i)
  {
    var total := 0;
    for i := 0 to |data|
      invariant total == Total(data[..i])
    {
      TotalStep(data, i);
      total := total + data[i].count;
    }
    assert data[..|data|] == data;
    if total == 0 {
      return Failure(DegenerateDataset);
    }
    var cumulativePercent := new real[|data|];
    cumulativePercent[0] := (data[0].count as real * 100.0) / total as real;
    assert data[..1] == [data[0]];
    for i := 1 to |data|
      invariant forall k :: 0 <= k < i ==> cumulativePercent[k] == CumulativePercent(data, k)
    {
      TotalStep(data, i);
      DivAdd((Total(data[..i]) * 100) as real, data[i].count as real * 100.0, total as real);
      cumulativePercent[i] := cumulativePercent[i - 1] + (data[i].count as real * 100.0) / total as real;
    }
    return Success(cumulativePercent[..]);
  }

  /** A curve vertex's x: the diameter interpolated over the full plot width. */
  function CurveX(p: Rect, diameter: real): int {
    p.left + Scale(DiameterFraction(diameter), p.right - p.left)
  }

  /** A curve vertex's y: the percentage of the plot height, measured up from the bottom. */
  function CurveY(p: Rect, percent: real): int {
    p.bottom - Scale(percent / 100.0, p.bottom - p.top)
  }

  /** The Polyline vertices of the cumulative curve. */
  ghost predicate CurveOf(p: Rect, data: seq<Bin>, points: seq<Point>) {
    |points| == |data| &&
    forall i :: 0 <= i < |data| ==>
      Total(data) != 0 && points[i] == Point(CurveX(p, data[i].diameter), CurveY(p, CumulativePercent(data, i)))
  }

  /**
    With non-negative counts every vertex of the curve lies inside the plot
    (for diameters on the axis), the curve never descends, and its last
    vertex is on the top edge.
  */
  lemma CurveFitsPlot(p: Rect, data: seq<Bin>, i: int, j: int)
    requires p.left <= p.right && p.top <= p.bottom && NonNegativeCounts(data) && Total(data) != 0
    requires 0 <= i <= j < |data|
    ensures MIN_DIAMETER <= data[i].diameter <= MIN_DIAMETER + DIAMETER_SPAN ==>
      p.left <= CurveX(p, data[i].diameter) <= p.right
    ensures p.top <= CurveY(p, CumulativePercent(data, j)) <= CurveY(p, CumulativePercent(data, i)) <= p.bottom
    ensures CurveY(p, CumulativePercent(data, |data| - 1)) == p.top
  {
    if MIN_DIAMETER <= data[i].diameter <= MIN_DIAMETER + DIAMETER_SPAN {
      CurveXInside(p, data[i].diameter);
    }
    var low, high, last := CumulativePercent(data, i), CumulativePercent(data, j), CumulativePercent(data, |data| - 1);
    CumulativeNonDecreasing(data, i, j);
    CurveYOrdered(p, low, high);
    CumulativeEndsAtHundred(data);
    CurveYOrdered(p, last, last);
  }

  /** A diameter on the axis gives a vertex between the plot's left and right edges. */
  lemma CurveXInside(p: Rect, d: real)
    requires p.left <= p.right && MIN_DIAMETER <= d <= MIN_DIAMETER + DIAMETER_SPAN
    ensures p.left <= CurveX(p, d) <= p.right
  {
    ScaleBounds(DiameterFraction(d), p.right - p.left);
  }

  /** A higher percentage is drawn higher; 0 to 100 percent spans the plot from bottom to top. */
  lemma CurveYOrdered(p: Rect, percent: real, percent': real)
    requires p.top <= p.bottom && 0.0 <= percent <= percent' <= 100.0
    ensures p.top <= CurveY(p, percent') <= CurveY(p, percent) <= p.bottom
    ensures percent' == 100.0 ==> CurveY(p, percent') == p.top
  {
    var h := p.bottom - p.top;
    ScaleMonotone(percent / 100.0, percent' / 100.0, h);
    ScaleBounds(percent / 100.0, h);
    ScaleBounds(percent' / 100.0, h);
    if percent' == 100.0 {
      ScaleWhole(h);
    }
  }

  /** The curve's first vertex at 0.25 mm is on the plot's left edge. */
  lemma CurveStartsOnLeftEdge(p: Rect)
    ensures CurveX(p, MIN_DIAMETER) == p.left
  {
    TruncOfInt(0);
  }

  /** A larger diameter never moves a curve vertex left. */
  lemma CurveXMonotone(p: Rect, d: real, d': real)
    requires p.left <= p.right && d <= d'
    ensures CurveX(p, d) <= CurveX(p, d')
  {
    ScaleMonotone(DiameterFraction(d), DiameterFraction(d'), p.right - p.left);
  }

  /** With diameters in ascending order the curve's vertices run left to right. */
  lemma CurveInDiameterOrder(p: Rect, data: seq<Bin>, points: seq<Point>)
    requires p.left <= p.right && DiametersAscending(data) && CurveOf(p, data, points)
    ensures forall i, j :: 0 <= i < j < |points| ==> points[i].x <= points[j].x
  {
    forall i, j | 0 <= i < j < |points|
      ensures points[i].x <= points[j].x
    {
      CurveXMonotone(p, data[i].diameter, data[j].diameter);
    }
  }

  /** The Polyline loop of DrawGraph, over the percentages computed before it. */
  method CurvePoints(p: Rect, data: seq<Bin>, cumulativePercent: seq<real>) returns (points: seq<Point>)
    requires Total(data) != 0 && |cumulativePercent| == |data|
    requires forall i :: 0 <= i < |data| ==> cumulativePercent[i] == CumulativePercent(data, i)
    ensures CurveOf(p, data, points)
  {
    points := [];
    for i := 0 to |data|
      invariant |points| == i
      invariant forall k :: 0 <= k < i ==>
        points[k] == Point(CurveX(p, data[k].diameter), CurveY(p, CumulativePercent(data, k)))
    {
      var xPos := CurveX(p, data[i].diameter);
      var yPos := CurveY(p, cumulativePercent[i]);
      points := points + [Point(xPos, yPos)];
    }
  }

  // ---------------------------------------------------------------------
  // The whole chart

  /** The geometry of a chart card as DrawGraph lays it out, before the title decides the figure. */
  ghost predicate FrameOf(x: int, y: int, width: int, height: int, l: Layout) {
    var p := PlotArea(x, y, width, height);
    && l.plot == p
    && |l.hGrid| == 6 && (forall i :: 0 <= i < 6 ==> l.hGrid[i] == HorizontalLine(p, i))
    && |l.vGrid| == 11 && (forall i :: 0 <= i < 11 ==> l.vGrid[i] == VerticalLine(p, i))
    && l.axes == [Segment(Point(p.left, p.bottom), Point(p.right, p.bottom)),
                  Segment(Point(p.left, p.top), Point(p.left, p.bottom))]
  }

  /**
    DrawGraph: lays out one chart card. The title selects the histogram, the
    cumulative curve or neither; a dataset that would divide by zero is
    reported instead of drawn.
  */
  method DrawGraph(x: int, y: int, width: int, height: int, title: string, data: seq<Bin>)
    returns (r: Result<Layout, ChartError>)
    ensures r.Failure? <==>
      || (title == HISTOGRAM_TITLE && data != [] && forall i :: 0 <= i < |data| ==> data[i].count <= 0)
      || (title == CURVE_TITLE && Total(data) == 0)
    ensures r.Success? ==> FrameOf(x, y, width, height, r.value)
    ensures r.Success? && title == HISTOGRAM_TITLE ==>
      r.value.figure.Histogram? && BarsOf(r.value.plot, data, r.value.figure.bars)
    ensures r.Success? && title == CURVE_TITLE ==>
      r.value.figure.Curve? && CurveOf(r.value.plot, data, r.value.figure.points)
    ensures r.Success? && title != HISTOGRAM_TITLE && title != CURVE_TITLE ==> r.value.figure.NoFigure?
  {
    var graphLeft := x + 60;
    var graphRight := x + width - 30;
    var graphTop := y + 50;
    var graphBottom := y + height - 50;
    var plot := Rect(graphLeft, graphTop, graphRight, graphBottom);
    var hGrid := HorizontalGridlines(plot);
    var vGrid := VerticalGridlines(plot);
    var axes := [Segment(Point(graphLeft, graphBottom), Point(graphRight, graphBottom)),
                 Segment(Point(graphLeft, graphTop), Point(graphLeft, graphBottom))];
    var figure := NoFigure;
    if title == HISTOGRAM_TITLE {
      var bars := HistogramBars(plot, data);
      if bars.Failure? {
        return Failure(bars.error);
      }
      figure := Histogram(bars.value);
    } else if title == CURVE_TITLE {
      var percents := CumulativePercents(data);
      if percents.Failure? {
        return Failure(percents.error);
      }
      var points := CurvePoints(plot, data, percents.value);
      figure := Curve(points);
    }
    return Success(Layout(plot, hGrid, vGrid, axes, figure));
  }

  // ---------------------------------------------------------------------
  // The dataset the window draws

  /** The largest count of the sample is 25, in bin 3 (0.40 mm), and the counts sum to 101. */
  lemma GrainDataFacts()
    ensures NonNegativeCounts(GrainData) && DiametersAscending(GrainData)
    ensures MaxCount(GrainData) == 25 && GrainData[3].count == 25
    ensures Total(GrainData) == 101
  {
    RunningTotalsOfGrainData();
    var d := GrainData;
    var m := MaxCount(d);
    assert d[3].count == 25;
    assert forall i :: 0 <= i < |d| ==> d[i].count <= 25;
    assert 25 <= m;
    assert m != 0;
    var k :| 0 <= k < |d| && d[k].count == m;
    assert d[k].count <= 25;
  }

  /** The sample can be drawn both ways: it has a positive count, and its total is not zero. */
  lemma GrainDataDrawable()
    ensures GrainData != [] && !(forall i :: 0 <= i < |GrainData| ==> GrainData[i].count <= 0)
    ensures Total(GrainData) != 0
  {
    assert GrainData[0].count > 0;
    RunningTotalsOfGrainData();
  }

  /** In any histogram of the sample, bar 3 (the largest count) reaches the top of the plot. */
  lemma GrainHistogramPeak(p: Rect, bars: seq<Rect>)
    requires p.top <= p.bottom && BarsOf(p, GrainData, bars)
    ensures |bars| == 10 && bars[3].top == p.top
  {
    GrainDataFacts();
    BarFitsPlot(p, GrainData, 3);
  }

  /** In any cumulative curve of the sample, the last vertex lies on the top of the plot. */
  lemma GrainCurveEnd(p: Rect, points: seq<Point>)
    requires p.left <= p.right && p.top <= p.bottom && CurveOf(p, GrainData, points)
    ensures |points| == 10 && points[9].y == p.top
  {
    GrainDataFacts();
    CurveFitsPlot(p, GrainData, 9, 9);
  }

  /** The running counts of the sample, bin by bin. */
  lemma RunningTotalsOfGrainData()
    ensures forall i :: 0 <= i < 10 ==> Total(GrainData[..i + 1]) == GrainRunningTotals[i]
    ensures Total(GrainData) == 101
  {
    var d := GrainData;
    assert d[..0] == [];
    TotalStep(d, 0); TotalStep(d, 1); TotalStep(d, 2); TotalStep(d, 3); TotalStep(d, 4);
    TotalStep(d, 5); TotalStep(d, 6); TotalStep(d, 7); TotalStep(d, 8); TotalStep(d, 9);
    assert d[..10] == d;
  }

  /** The running counts of the sample: 5, 15, 35, ... up to all 101 particles. */
  const GrainRunningTotals: seq<int> := [5, 15, 35, 60, 80, 90, 95, 98, 100, 101]

  /**
    The sample's cumulative percentages are the running counts
    5, 15, 35, 60, 80, 90, 95, 98, 100, 101 over 101, ending at exactly 100.
  */
  lemma GrainDataPercents()
    ensures Total(GrainData) == 101
    ensures forall i :: 0 <= i < 10 ==>
      CumulativePercent(GrainData, i) == (GrainRunningTotals[i] * 100) as real / 101.0
  {
    GrainDataFacts();
    RunningTotalsOfGrainData();
  }

  // ---------------------------------------------------------------------
  // Steps of real arithmetic, kept apart so that each is proved in isolation

  lemma MulNonNeg(a: real, b: real)
    requires 0.0 <= a && 0.0 <= b
    ensures 0.0 <= a * b
  {
  }

  lemma MulLe(a: real, b: real, c: real)
    requires a <= b && 0.0 <= c
    ensures a * c <= b * c
  {
    MulNonNeg(b - a, c);
  }

  lemma DivLe(a: real, b: real, t: real)
    requires a <= b && 0.0 < t
    ensures a / t <= b / t
  {
  }

  lemma DivAdd(a: real, b: real, t: real)
    requires t != 0.0
    ensures a / t + b / t == (a + b) / t
  {
  }

  lemma DivSelf(t: real)
    requires t != 0.0
    ensures t / t == 1.0
  {
  }

  lemma PercentsOrdered(a: int, b: int, t: int)
    requires 0 <= a <= b <= t && 0 < t
    ensures 0.0 <= (a * 100) as real / t as real <= (b * 100) as real / t as real <= 100.0
  {
    DivLe(0.0, (a * 100) as real, t as real);
    DivLe((a * 100) as real, (b * 100) as real, t as real);
    DivLe((b * 100) as real, (t * 100) as real, t as real);
    PercentOfWhole(t);
  }

  lemma PercentOfWhole(t: int)
    requires t != 0
    ensures (t * 100) as real / t as real == 100.0
  {
  }

  lemma DivBounds(a: real, t: real)
    requires 0.0 <= a <= t && 0.0 < t
    ensures 0.0 <= a / t <= 1.0
  {
  }
}
