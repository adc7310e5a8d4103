/** The fixed-margin funnel chart: one fill bar per stage, label, count and
    ACV texts, and for every later stage a conversion text and a connector.
    Its bar height is read off the first two points of the scale, so with
    one stage it is NaN; geometry values are therefore numbers or NaN. */
module SimpleChart {
  import opened FunnelTypes
  import opened Geometry

  /** A JavaScript number as far as this chart needs: a finite value or NaN. */
  datatype Num = Fin(v: real) | NaN

  function Add(a: Num, b: Num): (r: Num)
    ensures r.Fin? <==> a.Fin? && b.Fin?
  {
    if a.Fin? && b.Fin? then Fin(a.v + b.v) else NaN
  }

  function Sub(a: Num, b: Num): (r: Num)
    ensures r.Fin? <==> a.Fin? && b.Fin?
  {
    if a.Fin? && b.Fin? then Fin(a.v - b.v) else NaN
  }

  function Scale(a: Num, k: real): (r: Num)
    ensures r.Fin? <==> a.Fin?
  {
    if a.Fin? then Fin(a.v * k) else NaN
  }

  function Half(a: Num): (r: Num)
    ensures r.Fin? <==> a.Fin?
  {
    if a.Fin? then Fin(a.v / 2.0) else NaN
  }

  const MarginTop: real := 20.0
  const MarginRight: real := 20.0
  const MarginBottom: real := 30.0
  const MarginLeft: real := 20.0

  /** The inner height: the fixed 400-unit box minus the margins. */
  const InnerHeight: real := 400.0 - MarginTop - MarginBottom

  function InnerWidth(clientWidth: real): real
  {
    clientWidth - MarginLeft - MarginRight
  }

  /** `yScale(data[i]?.label)` for n stages: the point of stage i, or, past
      the end, the scale's undefined, which arithmetic turns into NaN. */
  function Probe(n: nat, i: nat): Num
  {
    if i < n then Fin(PointCenter(i, n, InnerHeight)) else NaN
  }

  /** 70% of the distance between the first two points. */
  function BarHeight(n: nat): Num
  {
    Scale(Sub(Probe(n, 1), Probe(n, 0)), 0.7)
  }

  /** The y of the i-th bar's top edge. */
  function BarY(n: nat, i: nat): Num
    requires i < n
  {
    Sub(Fin(PointCenter(i, n, InnerHeight)), Half(BarHeight(n)))
  }

  /** The primitives one iteration of the drawing loop appends. */
  function StagePrims(width: real, data: seq<FunnelItem>, i: nat): seq<Primitive<Num>>
    requires i < |data|
  {
    var n := |data|;
    var item := data[i];
    var bh := BarHeight(n);
    var y := BarY(n, i);
    var mid := Add(y, Half(bh));
    var fill := XScale(item.totalConversionACV, width);
    [Rect(Fill, Fin(0.0), y, Fin(fill), bh),
     Text(StageLabel(item.name), Fin(-5.0), mid),
     Text(CountLabel(item.count), Fin(10.0), mid),
     Text(AcvLabel(item.formattedACV), Fin(fill + 10.0), mid)]
    + (if i > 0 then
         var prevY := Add(Fin(PointCenter(i - 1, n, InnerHeight)), Half(bh));
         [Text(ConversionLabel(item.conversionRate), Fin(width + 5.0), mid),
          Path(Fin(XScale(data[i - 1].totalConversionACV, width) / 2.0), Add(prevY, Half(bh)),
               Fin(fill / 2.0), Sub(y, Fin(5.0)))]
       else [])
  }

  /** What the first k iterations of the drawing loop append. */
  function PlotPrims(width: real, data: seq<FunnelItem>, k: nat): seq<Primitive<Num>>
    requires k <= |data|
  {
    if k == 0 then [] else PlotPrims(width, data, k - 1) + StagePrims(width, data, k - 1)
  }

  /** The early return, or the plot group with its translation. */
  datatype Frame = NotDrawn | Drawn(plotOrigin: Point, plot: seq<Primitive<Num>>)

  function ChartFrame(data: seq<FunnelItem>, clientWidth: real): Frame
  {
    if |data| == 0 then NotDrawn
    else Drawn(Point(MarginLeft, MarginTop), PlotPrims(InnerWidth(clientWidth), data, |data|))
  }

  /** One iteration of the drawing loop. */
  method DrawStage(plot: seq<Primitive<Num>>, width: real, data: seq<FunnelItem>, i: nat)
    returns (plot': seq<Primitive<Num>>)
    requires i < |data|
    ensures plot' == plot + StagePrims(width, data, i)
  {
    var n := |data|;
    var item := data[i];
    var barHeight := BarHeight(n);
    var y := Sub(Fin(PointCenter(i, n, InnerHeight)), Half(barHeight));
    var fill := XScale(item.totalConversionACV, width);
    plot' := plot + [Rect(Fill, Fin(0.0), y, Fin(fill), barHeight)];
    plot' := plot' + [Text(StageLabel(item.name), Fin(-5.0), Add(y, Half(barHeight)))];
    plot' := plot' + [Text(CountLabel(item.count), Fin(10.0), Add(y, Half(barHeight)))];
    plot' := plot' + [Text(AcvLabel(item.formattedACV), Fin(fill + 10.0), Add(y, Half(barHeight)))];
    if i > 0 {
      plot' := plot' + [Text(ConversionLabel(item.conversionRate), Fin(width + 5.0), Add(y, Half(barHeight)))];
      var prevY := Add(Fin(PointCenter(i - 1, n, InnerHeight)), Half(barHeight));
      var currY := y;
      plot' := plot' + [Path(Fin(XScale(data[i - 1].totalConversionACV, width) / 2.0), Add(prevY, Half(barHeight)),
                             Fin(fill / 2.0), Sub(currY, Fin(5.0)))];
    }
  }

  /** The drawing effect: the early return on no data, then the loop. */
  method DrawChart(data: seq<FunnelItem>, clientWidth: real) returns (frame: Frame)
    ensures frame == ChartFrame(data, clientWidth)
  {
    if |data| == 0 {
      return NotDrawn;
    }
    var width := clientWidth - MarginLeft - MarginRight;
    var plot: seq<Primitive<Num>> := [];
    var i := 0;
    while i < |data|
      invariant 0 <= i <= |data|
      invariant plot == PlotPrims(width, data, i)
    {
      plot := DrawStage(plot, width, data, i);
      i := i + 1;
    }
    frame := Drawn(Point(MarginLeft, MarginTop), plot);
  }

  // ---------------------------------------------------------------------
  // What the drawing promises

  /** Nothing is drawn for no stages, whatever the width; otherwise the
      plot group sits at (20, 20) and the inner area is 40 narrower than
      the container and 350 high. */
  lemma FrameRule(data: seq<FunnelItem>, clientWidth: real)
    ensures ChartFrame(data, clientWidth) == NotDrawn <==> |data| == 0
    ensures InnerHeight == 350.0
    ensures InnerWidth(clientWidth) == clientWidth - 40.0
    ensures ChartFrame(data, clientWidth).Drawn? ==> ChartFrame(data, clientWidth).plotOrigin == Point(20.0, 20.0)
  {
  }

  /** With two or more stages the bar height is 70% of a step of the point
      scale; with one stage it is NaN. */
  lemma BarHeightRule(n: nat)
    requires n > 0
    ensures n >= 2 ==> BarHeight(n) == Fin(0.7 * (PointCenter(1, n, InnerHeight) - PointCenter(0, n, InnerHeight)))
    ensures n >= 2 ==> BarHeight(n) == Fin(245.0 / n as real)
    ensures n == 1 ==> BarHeight(n) == NaN
  {
    if n >= 2 {
      PointSpacing(0, n, InnerHeight);
    }
  }

  /** With two or more stages, stage i's bar lies on its point's band, its
      fill is as wide as its share of the first stage's ACV, and its texts
      sit on the point itself. */
  lemma StageFill(width: real, data: seq<FunnelItem>, i: nat)
    requires 2 <= |data| && i < |data|
    ensures var s := StagePrims(width, data, i);
      var n := |data|;
      var bh := 245.0 / n as real;
      var c := PointCenter(i, n, InnerHeight);
      && s[0] == Rect(Fill, Fin(0.0), Fin(c - bh / 2.0), Fin(XScale(data[i].totalConversionACV, width)), Fin(bh))
      && s[1] == Text(StageLabel(data[i].name), Fin(-5.0), Fin(c))
      && s[2] == Text(CountLabel(data[i].count), Fin(10.0), Fin(c))
      && s[3] == Text(AcvLabel(data[i].formattedACV), Fin(XScale(data[i].totalConversionACV, width) + 10.0), Fin(c))
  {
    BarHeightRule(|data|);
  }

  /** For every later stage the connector is drawn with no gap test, from
      half way along the previous fill, half a bar below the previous bar,
      to half way along this fill, five units above this bar. */
  lemma ConnectorEndpoints(width: real, data: seq<FunnelItem>, i: nat)
    requires 2 <= |data| && 0 < i < |data|
    ensures var s := StagePrims(width, data, i);
      var n := |data|;
      var bh := 245.0 / n as real;
      && |s| == 6
      && s[4] == Text(ConversionLabel(data[i].conversionRate), Fin(width + 5.0), Fin(PointCenter(i, n, InnerHeight)))
      && s[5] == Path(Fin(XScale(data[i - 1].totalConversionACV, width) / 2.0),
                      Fin(PointCenter(i - 1, n, InnerHeight) + bh),
                      Fin(XScale(data[i].totalConversionACV, width) / 2.0),
                      Fin(PointCenter(i, n, InnerHeight) - bh / 2.0 - 5.0))
  {
    BarHeightRule(|data|);
  }

  /** The element counts of one stage. */
  lemma StageCounts(width: real, data: seq<FunnelItem>, i: nat, p: Primitive<Num> -> bool)
    requires i < |data|
    ensures var s := StagePrims(width, data, i);
      Count(s, p) == Ind(p(s[0])) + Ind(p(s[1])) + Ind(p(s[2])) + Ind(p(s[3]))
                     + (if i > 0 then Ind(p(s[4])) + Ind(p(s[5])) else 0)
  {
    var s := StagePrims(width, data, i);
    var head := s[..4];
    var tail := s[4..];
    assert s == head + tail;
    CountConcat(head, tail, p);
    assert head == [s[0], s[1], s[2], s[3]];
    CountFour(s[0], s[1], s[2], s[3], p);
    if i > 0 {
      assert tail == [s[4], s[5]];
      CountTwo(s[4], s[5], p);
    } else {
      assert tail == [];
    }
  }

  lemma PlotCountStep(width: real, data: seq<FunnelItem>, k: nat, p: Primitive<Num> -> bool)
    requires 0 < k <= |data|
    ensures Count(PlotPrims(width, data, k), p) == Count(PlotPrims(width, data, k - 1), p) + Count(StagePrims(width, data, k - 1), p)
  {
    CountConcat(PlotPrims(width, data, k - 1), StagePrims(width, data, k - 1), p);
  }

  /** What one stage contributes of each kind. */
  lemma StageKinds(width: real, data: seq<FunnelItem>, i: nat)
    requires i < |data|
    ensures var s := StagePrims(width, data, i);
      && Count(s, IsFill) == 1
      && Count(s, IsAcvLabel) == 1
      && Count(s, IsTrack) == 0
      && Count(s, IsConversionLabel) == (if i > 0 then 1 else 0)
      && Count(s, IsConnector) == (if i > 0 then 1 else 0)
      && Count(s, IsConversionBadge) == 0
      && Count(s, IsDropOffBadge) == 0
  {
    StageCounts(width, data, i, IsFill);
    StageCounts(width, data, i, IsAcvLabel);
    StageCounts(width, data, i, IsTrack);
    StageCounts(width, data, i, IsConversionLabel);
    StageCounts(width, data, i, IsConnector);
    StageCounts(width, data, i, IsConversionBadge);
    StageCounts(width, data, i, IsDropOffBadge);
  }

  /** Over the whole plot: a fill and an ACV text per stage, and a
      conversion text and a connector per later stage. */
  lemma {:induction false} PlotCounts(width: real, data: seq<FunnelItem>, k: nat)
    requires 0 < k <= |data|
    ensures Count(PlotPrims(width, data, k), IsFill) == k
    ensures Count(PlotPrims(width, data, k), IsAcvLabel) == k
    ensures Count(PlotPrims(width, data, k), IsConversionLabel) == k - 1
    ensures Count(PlotPrims(width, data, k), IsConnector) == k - 1
  {
    if k > 1 {
      PlotCounts(width, data, k - 1);
    } else {
      assert PlotPrims(width, data, 0) == [];
    }
    StageKinds(width, data, k - 1);
    PlotCountStep(width, data, k, IsFill);
    PlotCountStep(width, data, k, IsAcvLabel);
    PlotCountStep(width, data, k, IsConversionLabel);
    PlotCountStep(width, data, k, IsConnector);
  }

  /** No track, no conversion badge and no drop-off badge anywhere. */
  lemma {:induction false} PlotHasNoBadges(width: real, data: seq<FunnelItem>, k: nat)
    requires k <= |data|
    ensures Count(PlotPrims(width, data, k), IsTrack) == 0
    ensures Count(PlotPrims(width, data, k), IsConversionBadge) == 0
    ensures Count(PlotPrims(width, data, k), IsDropOffBadge) == 0
  {
    if k > 0 {
      PlotHasNoBadges(width, data, k - 1);
      StageKinds(width, data, k - 1);
      PlotCountStep(width, data, k, IsTrack);
      PlotCountStep(width, data, k, IsConversionBadge);
      PlotCountStep(width, data, k, IsDropOffBadge);
    }
  }

  /** A one-stage chart draws a bar whose y and height are NaN and texts
      whose y is NaN, while every x stays a number; it has no connector. */
  lemma SingleStage(data: seq<FunnelItem>, clientWidth: real)
    requires |data| == 1
    ensures var f := ChartFrame(data, clientWidth);
      && f.Drawn?
      && |f.plot| == 4
      && f.plot[0].Rect? && f.plot[0].y == NaN && f.plot[0].height == NaN && f.plot[0].x.Fin?
      && (forall j :: 1 <= j < 4 ==> f.plot[j].Text? && f.plot[j].y == NaN && f.plot[j].x.Fin?)
      && Count(f.plot, IsConnector) == 0
  {
    BarHeightRule(1);
    assert PlotPrims(InnerWidth(clientWidth), data, 1) == StagePrims(InnerWidth(clientWidth), data, 0);
    PlotCounts(InnerWidth(clientWidth), data, 1);
  }
}
