/** The drawing effect of the responsive funnel chart: per-size-class
    constants, the inner plot area, the bar height, the per-stage drawing
    loop with its track, fill, labels, conversion badge, connector and
    drop-off badge, and the legend. */
module ResponsiveChart {
  import opened FunnelTypes
  import opened Geometry

  datatype Margin = Margin(top: real, right: real, bottom: real, left: real)

  /** Every number the chart picks by size class. */
  datatype Style = Style(
    outerHeight: real,
    margin: Margin,
    barCap: real,
    badgeWidth: real,
    badgeTextOffset: real,
    dropBadgeWidth: real,
    dropBadgeRise: real,
    dropBadgeHeight: real,
    dropTextOffset: real,
    legendGap: real,
    legendStep: real,
    swatchSize: real,
    legendTextOffset: real,
    legendTextY: real)

  function StyleOf(sc: SizeClass): Style
  {
    match sc
    case FourK =>
      Style(800.0, Margin(40.0, 60.0, 60.0, 100.0), 80.0, 70.0, 40.0,
            60.0, 12.0, 24.0, 40.0, 30.0, 200.0, 16.0, 24.0, 8.0)
    case Mobile =>
      Style(300.0, Margin(20.0, 10.0, 30.0, 60.0), 30.0, 40.0, 25.0,
            30.0, 8.0, 16.0, 15.0, 15.0, 90.0, 12.0, 18.0, 6.0)
    case Desktop =>
      Style(400.0, Margin(20.0, 30.0, 30.0, 80.0), 50.0, 50.0, 30.0,
            40.0, 8.0, 16.0, 30.0, 15.0, 150.0, 12.0, 18.0, 6.0)
  }

  /** The dimensions the resize handler stores: the container's client
      width and the outer height of the size class. */
  function MeasuredDimensions(clientWidth: real, sc: SizeClass): (d: Dimensions)
    ensures d.width == clientWidth
    ensures d.height == match sc case FourK => 800.0 case Mobile => 300.0 case Desktop => 400.0
  {
    Dimensions(clientWidth, StyleOf(sc).outerHeight)
  }

  /** The quantities the drawing loop shares: the style, whether ACV text is
      shown, the inner plot size, the number of stages and the bar height. */
  datatype Layout = Layout(
    style: Style,
    showAcv: bool,
    width: real,
    height: real,
    n: nat,
    barHeight: real)

  function LayoutOf(dims: Dimensions, sc: SizeClass, n: nat): Layout
    requires n > 0
  {
    var st := StyleOf(sc);
    var width := dims.width - st.margin.left - st.margin.right;
    var height := dims.height - st.margin.top - st.margin.bottom;
    Layout(st, sc != Mobile, width, height, n, Min(height / n as real * 0.7, st.barCap))
  }

  /** yScale(label) of the i-th stage. */
  function Center(g: Layout, i: nat): real
    requires i < g.n
  {
    PointCenter(i, g.n, g.height)
  }

  /** The y of the i-th bar's top edge. */
  function BarTop(g: Layout, i: nat): real
    requires i < g.n
  {
    Center(g, i) - g.barHeight / 2.0
  }

  /** Vertical space between one bar's bottom edge and the next bar's top. */
  function Gap(g: Layout): real
    requires g.n > 0
  {
    g.height / g.n as real - g.barHeight
  }

  /** The track, the fill and the label and count texts of a stage. */
  function BarPrims(g: Layout, item: FunnelItem, i: nat): seq<Primitive<real>>
    requires i < g.n
  {
    var y := BarTop(g, i);
    var bh := g.barHeight;
    [Rect(Track, 0.0, y, g.width, bh),
     Rect(Fill, 0.0, y, XScale(item.totalConversionACV, g.width), bh),
     Text(StageLabel(item.name), -10.0, y + bh / 2.0),
     Text(CountLabel(item.count), 10.0, y + bh / 2.0)]
  }

  /** The ACV text beside the fill, hidden on mobile. */
  function AcvPrims(g: Layout, item: FunnelItem, i: nat): seq<Primitive<real>>
    requires i < g.n
  {
    if g.showAcv then
      [Text(AcvLabel(item.formattedACV),
            XScale(item.totalConversionACV, g.width) + 10.0,
            BarTop(g, i) + g.barHeight / 2.0)]
    else []
  }

  /** The conversion badge right of the track, for every stage but the first. */
  function BadgePrims(g: Layout, item: FunnelItem, i: nat): seq<Primitive<real>>
    requires i < g.n
  {
    if i > 0 then
      var y := BarTop(g, i);
      [Rect(ConversionBadge, g.width + 5.0, y, g.style.badgeWidth, g.barHeight),
       Text(ConversionLabel(item.conversionRate), g.width + g.style.badgeTextOffset, y + g.barHeight / 2.0)]
    else []
  }

  /** The connector from the previous bar, with its drop-off badge. */
  function ConnectorPrims(g: Layout, data: seq<FunnelItem>, i: nat): seq<Primitive<real>>
    requires g.n == |data| && i < |data|
  {
    if i > 0 then
      var bh := g.barHeight;
      var prevY := Center(g, i - 1) + bh / 2.0;
      var currY := BarTop(g, i);
      if currY - prevY > 15.0 then
        var prevX := XScale(data[i - 1].totalConversionACV, g.width) / 2.0;
        [Path(prevX, prevY + bh / 2.0, XScale(data[i].totalConversionACV, g.width) / 2.0, currY - 5.0)]
        + (if data[i].dropOffPercentage > 0.0 then
             var midY := (prevY + bh / 2.0 + currY - 5.0) / 2.0;
             [Rect(DropOffBadge, prevX + 10.0, midY - g.style.dropBadgeRise,
                   g.style.dropBadgeWidth, g.style.dropBadgeHeight),
              Text(DropOffLabel(data[i].dropOffPercentage), prevX + g.style.dropTextOffset, midY)]
           else [])
      else []
    else []
  }

  /** Everything one iteration of the drawing loop appends, in order. */
  function StagePrims(g: Layout, data: seq<FunnelItem>, i: nat): seq<Primitive<real>>
    requires g.n == |data| && i < |data|
  {
    BarPrims(g, data[i], i) + AcvPrims(g, data[i], i) + BadgePrims(g, data[i], i)
    + ConnectorPrims(g, data, i)
  }

  /** What the first k iterations of the drawing loop append. */
  function PlotPrims(g: Layout, data: seq<FunnelItem>, k: nat): seq<Primitive<real>>
    requires g.n == |data| && k <= |data|
  {
    if k == 0 then [] else PlotPrims(g, data, k - 1) + StagePrims(g, data, k - 1)
  }

  const LegendTitles: seq<string> := ["ACV Value", "Conversion Rate", "Drop-off Rate"]

  function LegendEntry(st: Style, k: nat): seq<Primitive<real>>
    requires k < |LegendTitles|
  {
    var x := k as real * st.legendStep;
    [Rect(LegendSwatch, x, 0.0, st.swatchSize, st.swatchSize),
     Text(LegendLabel(LegendTitles[k]), x + st.legendTextOffset, st.legendTextY)]
  }

  /** What the first k iterations of the legend loop append. */
  function LegendPrims(st: Style, k: nat): seq<Primitive<real>>
    requires k <= |LegendTitles|
  {
    if k == 0 then [] else LegendPrims(st, k - 1) + LegendEntry(st, k - 1)
  }

  /** One more legend entry appends its swatch at k steps and its title. */
  lemma LegendStep(st: Style, k: nat)
    requires k < |LegendTitles|
    ensures LegendPrims(st, k + 1) == LegendPrims(st, k)
      + [Rect(LegendSwatch, k as real * st.legendStep, 0.0, st.swatchSize, st.swatchSize)]
      + [Text(LegendLabel(LegendTitles[k]), k as real * st.legendStep + st.legendTextOffset, st.legendTextY)]
  {
    EntrySwatch(st, k);
  }

  /** The k-th entry's swatch sits k steps along. */
  lemma EntrySwatch(st: Style, k: nat)
    requires k < |LegendTitles|
    ensures LegendEntry(st, k)[0] == Rect(LegendSwatch, k as real * st.legendStep, 0.0, st.swatchSize, st.swatchSize)
  {
    var swatch := LegendEntry(st, k)[0];
    assert swatch.Rect? && swatch.role == LegendSwatch && swatch.x == k as real * st.legendStep && swatch.y == 0.0;
    assert swatch.width == st.swatchSize && swatch.height == st.swatchSize;
  }

  /** The outcome of one run of the drawing effect: the early return, or
      the plot group and the legend group with their translations. */
  datatype Frame =
    | NotDrawn
    | Drawn(plotOrigin: Point, plot: seq<Primitive<real>>, legendOrigin: Point, legend: seq<Primitive<real>>)

  function ChartFrame(data: seq<FunnelItem>, dims: Dimensions, sc: SizeClass): Frame
  {
    if |data| == 0 || dims.width == 0.0 then NotDrawn
    else
      var g := LayoutOf(dims, sc, |data|);
      var m := g.style.margin;
      Drawn(Point(m.left, m.top), PlotPrims(g, data, |data|),
            Point(m.left, g.height + m.top + g.style.legendGap), LegendPrims(g.style, |LegendTitles|))
  }

  /** One iteration of the drawing loop: appends the stage's primitives to
      plot, one at a time. */
  method DrawStage(plot: seq<Primitive<real>>, g: Layout, data: seq<FunnelItem>, i: nat)
    returns (plot': seq<Primitive<real>>)
    requires g.n == |data| && i < |data|
    ensures plot' == plot + StagePrims(g, data, i)
  {
    var item := data[i];
    var width, barHeight := g.width, g.barHeight;
    var y := PointCenter(i, |data|, g.height) - barHeight / 2.0;
    plot' := plot + [Rect(Track, 0.0, y, width, barHeight)];
    plot' := plot' + [Rect(Fill, 0.0, y, XScale(item.totalConversionACV, width), barHeight)];
    plot' := plot' + [Text(StageLabel(item.name), -10.0, y + barHeight / 2.0)];
    plot' := plot' + [Text(CountLabel(item.count), 10.0, y + barHeight / 2.0)];
    assert plot' == plot + BarPrims(g, item, i);
    if g.showAcv {
      plot' := plot' + [Text(AcvLabel(item.formattedACV), XScale(item.totalConversionACV, width) + 10.0, y + barHeight / 2.0)];
    }
    assert plot' == plot + BarPrims(g, item, i) + AcvPrims(g, item, i);
    if i > 0 {
      plot' := plot' + [Rect(ConversionBadge, width + 5.0, y, g.style.badgeWidth, barHeight)];
      plot' := plot' + [Text(ConversionLabel(item.conversionRate), width + g.style.badgeTextOffset, y + barHeight / 2.0)];
    }
    assert plot' == plot + BarPrims(g, item, i) + AcvPrims(g, item, i) + BadgePrims(g, item, i);
    plot' := DrawConnector(plot', g, data, i);
  }

  /** The connector part of one iteration. */
  method DrawConnector(plot: seq<Primitive<real>>, g: Layout, data: seq<FunnelItem>, i: nat)
    returns (plot': seq<Primitive<real>>)
    requires g.n == |data| && i < |data|
    ensures plot' == plot + ConnectorPrims(g, data, i)
  {
    plot' := plot;
    if i > 0 {
      var item := data[i];
      var width, barHeight := g.width, g.barHeight;
      var prevY := PointCenter(i - 1, |data|, g.height) + barHeight / 2.0;
      var currY := PointCenter(i, |data|, g.height) - barHeight / 2.0;
      if currY - prevY > 15.0 {
        var prevX := XScale(data[i - 1].totalConversionACV, width) / 2.0;
        plot' := plot' + [Path(prevX, prevY + barHeight / 2.0, XScale(item.totalConversionACV, width) / 2.0, currY - 5.0)];
        if item.dropOffPercentage > 0.0 {
          var midY := (prevY + barHeight / 2.0 + currY - 5.0) / 2.0;
          plot' := plot' + [Rect(DropOffBadge, prevX + 10.0, midY - g.style.dropBadgeRise, g.style.dropBadgeWidth, g.style.dropBadgeHeight)];
          plot' := plot' + [Text(DropOffLabel(item.dropOffPercentage), prevX + g.style.dropTextOffset, midY)];
        }
      }
    }
  }

  /** The legend loop: a swatch and a title per entry. */
  method DrawLegend(st: Style) returns (legend: seq<Primitive<real>>)
    ensures legend == LegendPrims(st, |LegendTitles|)
  {
    legend := [];
    var k: nat := 0;
    while k < |LegendTitles|
      invariant 0 <= k <= |LegendTitles|
      invariant legend == LegendPrims(st, k)
    {
      var legendX := k as real * st.legendStep;
      var swatch := Rect(LegendSwatch, legendX, 0.0, st.swatchSize, st.swatchSize);
      var title := Text(LegendLabel(LegendTitles[k]), legendX + st.legendTextOffset, st.legendTextY);
      legend := legend + [swatch];
      legend := legend + [title];
      LegendStep(st, k);
      k := k + 1;
    }
  }

  /** The drawing effect: the early return, the margins, the inner size and
      the bar height, then the per-stage loop and the legend loop. */
  method DrawChart(data: seq<FunnelItem>, dims: Dimensions, sc: SizeClass) returns (frame: Frame)
    ensures frame == ChartFrame(data, dims, sc)
  {
    if |data| == 0 || dims.width == 0.0 {
      return NotDrawn;
    }
    var st := StyleOf(sc);
    var margin := st.margin;
    var width := dims.width - margin.left - margin.right;
    var height := dims.height - margin.top - margin.bottom;
    var barHeight := Min(height / |data| as real * 0.7, st.barCap);
    var g := Layout(st, sc != Mobile, width, height, |data|, barHeight);
    assert g == LayoutOf(dims, sc, |data|);

    var plot: seq<Primitive<real>> := [];
    var i := 0;
    while i < |data|
      invariant 0 <= i <= |data|
      invariant plot == PlotPrims(g, data, i)
    {
      plot := DrawStage(plot, g, data, i);
      i := i + 1;
    }

    var legend := DrawLegend(st);
    frame := Drawn(Point(margin.left, margin.top), plot,
                   Point(margin.left, height + margin.top + st.legendGap), legend);
  }

  // ---------------------------------------------------------------------
  // What the drawing promises

  /** The size-class table read through the chart's flags: 4K takes
      precedence over mobile. */
  lemma StyleByFlags(is4K: bool, isMobile: bool)
    ensures var st := StyleOf(SizeClassOf(is4K, isMobile));
      && (is4K ==>
            st.outerHeight == 800.0 && st.margin == Margin(40.0, 60.0, 60.0, 100.0)
            && st.barCap == 80.0 && st.legendStep == 200.0)
      && (!is4K && isMobile ==>
            st.outerHeight == 300.0 && st.margin == Margin(20.0, 10.0, 30.0, 60.0)
            && st.barCap == 30.0 && st.legendStep == 90.0)
      && (!is4K && !isMobile ==>
            st.outerHeight == 400.0 && st.margin == Margin(20.0, 30.0, 30.0, 80.0)
            && st.barCap == 50.0 && st.legendStep == 150.0)
    ensures var st := StyleOf(SizeClassOf(is4K, isMobile));
      2.0 * st.dropBadgeRise == st.dropBadgeHeight
  {
  }

  /** Nothing is drawn for no stages or a zero width; otherwise the plot
      group sits at the top-left margin, the inner area is the outer size
      minus the margins, and the legend group starts its gap below the
      bottom edge of the inner area. */
  lemma FrameRule(data: seq<FunnelItem>, dims: Dimensions, sc: SizeClass)
    ensures ChartFrame(data, dims, sc) == NotDrawn <==> |data| == 0 || dims.width == 0.0
    ensures ChartFrame(data, dims, sc).Drawn? ==>
      var f := ChartFrame(data, dims, sc);
      var g := LayoutOf(dims, sc, |data|);
      var m := StyleOf(sc).margin;
      && f.plotOrigin == Point(m.left, m.top)
      && m.left + g.width + m.right == dims.width
      && m.top + g.height + m.bottom == dims.height
      && f.legendOrigin == Point(m.left, dims.height - m.bottom + StyleOf(sc).legendGap)
  {
  }

  /** With the measured dimensions, the inner height is 700 on 4K, 250 on
      mobile and 350 otherwise. */
  lemma MeasuredInnerHeight(clientWidth: real, sc: SizeClass, n: nat)
    requires n > 0
    ensures LayoutOf(MeasuredDimensions(clientWidth, sc), sc, n).height
         == match sc case FourK => 700.0 case Mobile => 250.0 case Desktop => 350.0
  {
  }

  /** The bar height is the smaller of 70% of a step and the cap, so it
      exceeds neither; with a positive inner height it is positive and the
      gap between bars is at least 30% of a step. */
  lemma BarHeightBounds(dims: Dimensions, sc: SizeClass, n: nat)
    requires n > 0
    ensures var g := LayoutOf(dims, sc, n);
      && g.barHeight <= 0.7 * (g.height / n as real)
      && g.barHeight <= StyleOf(sc).barCap
      && (g.barHeight == 0.7 * (g.height / n as real) || g.barHeight == StyleOf(sc).barCap)
      && (g.height > 0.0 ==> 0.0 < g.barHeight && Gap(g) >= 0.3 * (g.height / n as real))
  {
    var g := LayoutOf(dims, sc, n);
    var step := g.height / n as real;
    if g.height > 0.0 {
      assert step > 0.0;
      assert StyleOf(sc).barCap > 0.0;
    }
  }

  /** The previous bar's bottom edge and the current bar's top edge are
      one gap apart, the same for every pair of stages. */
  lemma ConnectorGap(g: Layout, i: nat)
    requires 0 < i < g.n
    ensures BarTop(g, i) - (Center(g, i - 1) + g.barHeight / 2.0) == Gap(g)
  {
    PointSpacing(i - 1, g.n, g.height);
  }

  /** Each stage gets a full-width track and a fill as wide as its share of
      the first stage's ACV, both on the same band, and its label and count
      texts on the band's middle line, the stage's point. */
  lemma StageBars(g: Layout, data: seq<FunnelItem>, i: nat)
    requires g.n == |data| && i < |data|
    ensures var s := StagePrims(g, data, i);
      var y := BarTop(g, i);
      && |s| >= 4
      && s[0] == Rect(Track, 0.0, y, g.width, g.barHeight)
      && s[1] == Rect(Fill, 0.0, y, XScale(data[i].totalConversionACV, g.width), g.barHeight)
      && s[2] == Text(StageLabel(data[i].name), -10.0, Center(g, i))
      && s[3] == Text(CountLabel(data[i].count), 10.0, Center(g, i))
  {
  }

  /** The ACV text is present exactly when the size class is not mobile,
      ten units right of the fill's end. */
  lemma AcvPlacement(g: Layout, item: FunnelItem, i: nat)
    requires i < g.n
    ensures |AcvPrims(g, item, i)| == if g.showAcv then 1 else 0
    ensures g.showAcv ==>
      AcvPrims(g, item, i)[0]
        == Text(AcvLabel(item.formattedACV), XScale(item.totalConversionACV, g.width) + 10.0, Center(g, i))
  {
  }

  /** The conversion badge is present exactly for the stages after the
      first, five units right of the track, on the stage's band. */
  lemma BadgePlacement(g: Layout, item: FunnelItem, i: nat)
    requires i < g.n
    ensures |BadgePrims(g, item, i)| == if i > 0 then 2 else 0
    ensures i > 0 ==>
      && BadgePrims(g, item, i)[0] == Rect(ConversionBadge, g.width + 5.0, BarTop(g, i), g.style.badgeWidth, g.barHeight)
      && BadgePrims(g, item, i)[1] == Text(ConversionLabel(item.conversionRate), g.width + g.style.badgeTextOffset, Center(g, i))
  {
  }

  /** A connector is drawn for stage i exactly when i > 0 and the gap
      exceeds 15. It runs from half way along the previous fill, half a bar
      below the previous bar, to half way along this fill, five units above
      this bar; its drop-off badge is there exactly when the drop-off
      percentage is positive, and both badge parts are centred on the
      midpoint of the connector's y endpoints. */
  lemma ConnectorPlacement(g: Layout, data: seq<FunnelItem>, i: nat)
    requires g.n == |data| && i < |data|
    ensures var c := ConnectorPrims(g, data, i);
      && (|c| > 0 <==> i > 0 && Gap(g) > 15.0)
      && (|c| == 3 <==> i > 0 && Gap(g) > 15.0 && data[i].dropOffPercentage > 0.0)
      && (|c| == 0 || |c| == 1 || |c| == 3)
    ensures var c := ConnectorPrims(g, data, i);
      |c| > 0 ==>
        && c[0] == Path(XScale(data[i - 1].totalConversionACV, g.width) / 2.0,
                        BarTop(g, i - 1) + g.barHeight + g.barHeight / 2.0,
                        XScale(data[i].totalConversionACV, g.width) / 2.0,
                        BarTop(g, i) - 5.0)
        && c[0].y2 - c[0].y1 == Gap(g) - g.barHeight / 2.0 - 5.0
    ensures var c := ConnectorPrims(g, data, i);
      |c| == 3 ==>
        var midY := (c[0].y1 + c[0].y2) / 2.0;
        && c[1] == Rect(DropOffBadge, c[0].x1 + 10.0, midY - g.style.dropBadgeRise,
                        g.style.dropBadgeWidth, g.style.dropBadgeHeight)
        && c[2] == Text(DropOffLabel(data[i].dropOffPercentage), c[0].x1 + g.style.dropTextOffset, midY)
  {
    if i > 0 {
      ConnectorGap(g, i);
    }
  }

  /** How many of the stages 1 .. k-1 have a positive drop-off percentage:
      none exactly when no such stage has one, all k-1 exactly when every
      such stage has one. */
  function PositiveDropOffs(data: seq<FunnelItem>, k: nat): (c: nat)
    requires k <= |data|
    ensures c < k || k == 0
    ensures c == 0 <==> forall i :: 1 <= i < k ==> data[i].dropOffPercentage <= 0.0
    ensures k >= 1 ==> (c == k - 1 <==> forall i :: 1 <= i < k ==> data[i].dropOffPercentage > 0.0)
  {
    if k <= 1 then 0
    else PositiveDropOffs(data, k - 1) + (if data[k - 1].dropOffPercentage > 0.0 then 1 else 0)
  }

  /** Counting over one stage, part by part and element by element. */
  lemma StageCountParts(g: Layout, data: seq<FunnelItem>, i: nat, p: Primitive<real> -> bool)
    requires g.n == |data| && i < |data|
    ensures var bs, acv, cs, ds := BarPrims(g, data[i], i), AcvPrims(g, data[i], i), BadgePrims(g, data[i], i), ConnectorPrims(g, data, i);
      && Count(StagePrims(g, data, i), p) == Count(bs, p) + Count(acv, p) + Count(cs, p) + Count(ds, p)
      && Count(bs, p) == Ind(p(bs[0])) + Ind(p(bs[1])) + Ind(p(bs[2])) + Ind(p(bs[3]))
      && Count(acv, p) == (if |acv| == 1 then Ind(p(acv[0])) else 0)
      && Count(cs, p) == (if |cs| == 2 then Ind(p(cs[0])) + Ind(p(cs[1])) else 0)
      && Count(ds, p) == (if |ds| == 1 then Ind(p(ds[0]))
                          else if |ds| == 3 then Ind(p(ds[0])) + Ind(p(ds[1])) + Ind(p(ds[2]))
                          else 0)
  {
    var bs, acv, cs, ds := BarPrims(g, data[i], i), AcvPrims(g, data[i], i), BadgePrims(g, data[i], i), ConnectorPrims(g, data, i);
    CountConcat(bs, acv, p);
    CountConcat(bs + acv, cs, p);
    CountConcat(bs + acv + cs, ds, p);
    CountFour(bs[0], bs[1], bs[2], bs[3], p);
    if |acv| == 1 {
      CountOne(acv[0], p);
    }
    if |cs| == 2 {
      CountTwo(cs[0], cs[1], p);
    }
    ConnectorPlacement(g, data, i);
    if |ds| == 1 {
      CountOne(ds[0], p);
    } else if |ds| == 3 {
      assert ds == [ds[0], ds[1], ds[2]];
      CountThree(ds[0], ds[1], ds[2], p);
    }
  }

  /** Every stage has one track and one fill, and an ACV text unless the
      class is mobile. */
  lemma StageBarCounts(g: Layout, data: seq<FunnelItem>, i: nat)
    requires g.n == |data| && i < |data|
    ensures Count(StagePrims(g, data, i), IsTrack) == 1
    ensures Count(StagePrims(g, data, i), IsFill) == 1
    ensures Count(StagePrims(g, data, i), IsStageLabel) == 1
    ensures Count(StagePrims(g, data, i), IsCountLabel) == 1
    ensures Count(StagePrims(g, data, i), IsAcvLabel) == if g.showAcv then 1 else 0
  {
    ConnectorPlacement(g, data, i);
    AcvPlacement(g, data[i], i);
    BadgePlacement(g, data[i], i);
    StageCountParts(g, data, i, IsTrack);
    StageCountParts(g, data, i, IsFill);
    StageCountParts(g, data, i, IsStageLabel);
    StageCountParts(g, data, i, IsCountLabel);
    StageCountParts(g, data, i, IsAcvLabel);
  }

  /** A stage has a conversion badge exactly when it is not the first, a
      connector exactly when also the gap exceeds 15, and a drop-off badge
      exactly when also its drop-off percentage is positive. */
  lemma StageBadgeCounts(g: Layout, data: seq<FunnelItem>, i: nat)
    requires g.n == |data| && i < |data|
    ensures Count(StagePrims(g, data, i), IsConversionBadge) == if i > 0 then 1 else 0
    ensures Count(StagePrims(g, data, i), IsConnector) == if i > 0 && Gap(g) > 15.0 then 1 else 0
    ensures Count(StagePrims(g, data, i), IsDropOffBadge)
         == if i > 0 && Gap(g) > 15.0 && data[i].dropOffPercentage > 0.0 then 1 else 0
    ensures Count(StagePrims(g, data, i), IsDropOffLabel) == Count(StagePrims(g, data, i), IsDropOffBadge)
  {
    ConnectorPlacement(g, data, i);
    AcvPlacement(g, data[i], i);
    BadgePlacement(g, data[i], i);
    StageCountParts(g, data, i, IsConversionBadge);
    StageCountParts(g, data, i, IsConnector);
    StageCountParts(g, data, i, IsDropOffBadge);
    StageCountParts(g, data, i, IsDropOffLabel);
  }

  lemma PlotCountStep(g: Layout, data: seq<FunnelItem>, k: nat, p: Primitive<real> -> bool)
    requires g.n == |data| && 0 < k <= |data|
    ensures Count(PlotPrims(g, data, k), p) == Count(PlotPrims(g, data, k - 1), p) + Count(StagePrims(g, data, k - 1), p)
  {
    CountConcat(PlotPrims(g, data, k - 1), StagePrims(g, data, k - 1), p);
  }

  /** A kind of element that the first stage contributes c0 times and
      every later stage c times occurs c0 + (k - 1) c times in the first k
      stages. */
  lemma {:induction false} PlotCountUniform(g: Layout, data: seq<FunnelItem>, k: nat, p: Primitive<real> -> bool, c0: nat, c: nat)
    requires g.n == |data| && 0 < k <= |data|
    requires Count(StagePrims(g, data, 0), p) == c0
    requires forall i :: 0 < i < |data| ==> Count(StagePrims(g, data, i), p) == c
    ensures Count(PlotPrims(g, data, k), p) == c0 + (k - 1) * c
  {
    PlotCountStep(g, data, k, p);
    if k > 1 {
      PlotCountUniform(g, data, k - 1, p, c0, c);
    } else {
      assert PlotPrims(g, data, 0) == [];
    }
  }

  /** Over the whole plot: one track and one fill per stage, and ACV
      texts on every stage or on none. */
  lemma PlotBarCounts(g: Layout, data: seq<FunnelItem>)
    requires g.n == |data| && 0 < |data|
    ensures Count(PlotPrims(g, data, |data|), IsTrack) == |data|
    ensures Count(PlotPrims(g, data, |data|), IsFill) == |data|
    ensures Count(PlotPrims(g, data, |data|), IsAcvLabel) == if g.showAcv then |data| else 0
  {
    var acv := if g.showAcv then 1 else 0;
    forall i | 0 <= i < |data|
      ensures Count(StagePrims(g, data, i), IsTrack) == 1
      ensures Count(StagePrims(g, data, i), IsFill) == 1
      ensures Count(StagePrims(g, data, i), IsAcvLabel) == acv
    {
      StageBarCounts(g, data, i);
    }
    PlotCountUniform(g, data, |data|, IsTrack, 1, 1);
    PlotCountUniform(g, data, |data|, IsFill, 1, 1);
    PlotCountUniform(g, data, |data|, IsAcvLabel, acv, acv);
  }

  /** A conversion badge on every stage but the first, and connectors
      between all consecutive stages or between none. */
  lemma PlotBadgeCounts(g: Layout, data: seq<FunnelItem>)
    requires g.n == |data| && 0 < |data|
    ensures Count(PlotPrims(g, data, |data|), IsConversionBadge) == |data| - 1
    ensures Count(PlotPrims(g, data, |data|), IsConnector) == if Gap(g) > 15.0 then |data| - 1 else 0
  {
    var conn := if Gap(g) > 15.0 then 1 else 0;
    forall i | 0 <= i < |data|
      ensures Count(StagePrims(g, data, i), IsConversionBadge) == if i > 0 then 1 else 0
      ensures Count(StagePrims(g, data, i), IsConnector) == if i > 0 then conn else 0
    {
      StageBadgeCounts(g, data, i);
    }
    PlotCountUniform(g, data, |data|, IsConversionBadge, 0, 1);
    PlotCountUniform(g, data, |data|, IsConnector, 0, conn);
  }

  /** Drop-off badges come only with connectors, one per later stage with a
      positive drop-off percentage. */
  lemma {:induction false} PlotDropOffCounts(g: Layout, data: seq<FunnelItem>, k: nat)
    requires g.n == |data| && 0 < |data| && k <= |data|
    ensures Count(PlotPrims(g, data, k), IsDropOffBadge) == if Gap(g) > 15.0 then PositiveDropOffs(data, k) else 0
  {
    if k > 0 {
      PlotDropOffCounts(g, data, k - 1);
      StageBadgeCounts(g, data, k - 1);
      PlotCountStep(g, data, k, IsDropOffBadge);
    }
  }

  /** A one-stage chart has no connector, no conversion badge and no
      drop-off badge. */
  lemma SingleStage(data: seq<FunnelItem>, dims: Dimensions, sc: SizeClass)
    requires |data| == 1 && dims.width != 0.0
    ensures var f := ChartFrame(data, dims, sc);
      && f.Drawn?
      && Count(f.plot, IsConnector) == 0
      && Count(f.plot, IsConversionBadge) == 0
      && Count(f.plot, IsDropOffBadge) == 0
  {
    PlotBadgeCounts(LayoutOf(dims, sc, 1), data);
    PlotDropOffCounts(LayoutOf(dims, sc, 1), data, 1);
  }

  lemma {:induction false} LegendSwatchCount(st: Style, k: nat)
    requires k <= |LegendTitles|
    ensures Count(LegendPrims(st, k), IsSwatch) == k
  {
    if k > 0 {
      LegendSwatchCount(st, k - 1);
      var entry := LegendEntry(st, k - 1);
      CountConcat(LegendPrims(st, k - 1), entry, IsSwatch);
      assert entry == [entry[0], entry[1]];
      CountTwo(entry[0], entry[1], IsSwatch);
    }
  }

  lemma {:induction false} LegendSlices(st: Style, k: nat)
    requires k <= |LegendTitles|
    ensures |LegendPrims(st, k)| == 2 * k
    ensures forall j :: 0 <= j < k ==>
      LegendPrims(st, k)[2 * j] == LegendEntry(st, j)[0] && LegendPrims(st, k)[2 * j + 1] == LegendEntry(st, j)[1]
  {
    if k > 0 {
      LegendSlices(st, k - 1);
      var prev := LegendPrims(st, k - 1);
      assert LegendPrims(st, k) == prev + LegendEntry(st, k - 1);
      forall j | 0 <= j < k - 1
        ensures LegendPrims(st, k)[2 * j] == prev[2 * j] && LegendPrims(st, k)[2 * j + 1] == prev[2 * j + 1]
      {
      }
    }
  }

  /** The legend loop lays out k entries, a swatch and its title each;
      the j-th entry occupies elements 2j and 2j + 1. */
  lemma LegendLayout(st: Style, k: nat)
    requires k <= |LegendTitles|
    ensures |LegendPrims(st, k)| == 2 * k
    ensures Count(LegendPrims(st, k), IsSwatch) == k
    ensures forall j :: 0 <= j < k ==>
      LegendPrims(st, k)[2 * j] == LegendEntry(st, j)[0] && LegendPrims(st, k)[2 * j + 1] == LegendEntry(st, j)[1]
  {
    LegendSwatchCount(st, k);
    LegendSlices(st, k);
  }

  /** The full legend: three swatches, the j-th at x = j times the step. */
  lemma LegendEntries(st: Style)
    ensures |LegendPrims(st, 3)| == 6
    ensures Count(LegendPrims(st, 3), IsSwatch) == 3
    ensures forall j :: 0 <= j < 3 ==>
      LegendPrims(st, 3)[2 * j] == Rect(LegendSwatch, j as real * st.legendStep, 0.0, st.swatchSize, st.swatchSize)
  {
    LegendLayout(st, 3);
    forall j | 0 <= j < 3
      ensures LegendPrims(st, 3)[2 * j] == Rect(LegendSwatch, j as real * st.legendStep, 0.0, st.swatchSize, st.swatchSize)
    {
      EntrySwatch(st, j);
    }
  }

  /** A drawn chart has exactly three legend entries, spaced 200 apart on
      4K, 90 on mobile and 150 otherwise. */
  lemma LegendOfChart(data: seq<FunnelItem>, dims: Dimensions, sc: SizeClass)
    requires |data| > 0 && dims.width != 0.0
    ensures StyleOf(sc).legendStep == match sc case FourK => 200.0 case Mobile => 90.0 case Desktop => 150.0
    ensures var f := ChartFrame(data, dims, sc);
      var st := StyleOf(sc);
      && f.Drawn?
      && Count(f.legend, IsSwatch) == 3
      && forall j :: 0 <= j < 3 ==> f.legend[2 * j] == Rect(LegendSwatch, j as real * st.legendStep, 0.0, st.swatchSize, st.swatchSize)
  {
    assert ChartFrame(data, dims, sc).legend == LegendPrims(StyleOf(sc), 3);
    LegendEntries(StyleOf(sc));
  }

  /** On desktop with six stages the gap (17.5) passes the 15-unit test,
      but the connector starts half a bar below the previous bar, so it
      ends higher than it starts: every connector points upward. */
  lemma SixStageDesktopConnectors(data: seq<FunnelItem>, clientWidth: real, i: nat)
    requires |data| == 6 && 0 < i < 6
    ensures var g := LayoutOf(MeasuredDimensions(clientWidth, Desktop), Desktop, 6);
      var c := ConnectorPrims(g, data, i);
      && g.barHeight == 245.0 / 6.0
      && Gap(g) == 17.5
      && |c| > 0
      && c[0].y2 < c[0].y1
  {
    var g := LayoutOf(MeasuredDimensions(clientWidth, Desktop), Desktop, 6);
    assert g.height == 350.0;
    assert g.barHeight == 245.0 / 6.0;
    ConnectorPlacement(g, data, i);
  }
}
