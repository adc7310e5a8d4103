/** What both funnel charts draw with: the size classes, the two d3 scales
    written as formulas, and the SVG primitives appended to the chart group. */
module Geometry {

  /** The viewport classes of the responsive chart. */
  datatype SizeClass = Mobile | Desktop | FourK

  /** The chart's two media-query flags folded into one class. Every
      ternary in the chart tests `is4K` before `isMobile`. */
  function SizeClassOf(is4K: bool, isMobile: bool): (sc: SizeClass)
    ensures sc == FourK <==> is4K
    ensures sc == Mobile <==> !is4K && isMobile
  {
    if is4K then FourK else if isMobile then Mobile else Desktop
  }

  datatype Dimensions = Dimensions(width: real, height: real)

  datatype Point = Point(x: real, y: real)

  function Min(a: real, b: real): real
  {
    if a <= b then a else b
  }

  /** `d3.scaleLinear().domain([0, 100]).range([0, width])`. */
  function XScale(v: real, width: real): real
  {
    v / 100.0 * width
  }

  /** `d3.scalePoint().domain(labels).range([0, height]).padding(0.5)` at
      the i-th of n distinct labels: step height/n, first point half a step
      in. */
  function PointCenter(i: nat, n: nat, height: real): real
    requires i < n
  {
    (i as real + 0.5) * height / n as real
  }

  /** The linear scale maps the percentage range onto the full width. */
  lemma XScaleEnds(width: real)
    ensures XScale(0.0, width) == 0.0
    ensures XScale(100.0, width) == width
    ensures XScale(50.0, width) == width / 2.0
  {
  }

  /** Consecutive points are one step, height/n, apart, and the outer
      padding is half a step at both ends. */
  lemma PointSpacing(i: nat, n: nat, height: real)
    requires i + 1 < n
    ensures PointCenter(i + 1, n, height) - PointCenter(i, n, height) == height / n as real
  {
    var step := height / n as real;
    assert PointCenter(i, n, height) == (i as real + 0.5) * step;
    assert PointCenter(i + 1, n, height) == (i as real + 1.5) * step;
  }

  lemma PointPadding(n: nat, height: real)
    requires n > 0
    ensures PointCenter(0, n, height) == height / n as real / 2.0
    ensures height - PointCenter(n - 1, n, height) == height / n as real / 2.0
  {
    var step := height / n as real;
    assert PointCenter(n - 1, n, height) == (n as real - 0.5) * step;
    assert n as real * step == height;
  }

  datatype Role = Track | Fill | ConversionBadge | DropOffBadge | LegendSwatch

  /** What a text element shows. Numbers stay numbers: their conversion to
      text by template literals is not modelled. */
  datatype Content =
    | StageLabel(stage: string)
    | CountLabel(count: int)
    | AcvLabel(formatted: string)
    | ConversionLabel(rate: real)
    | DropOffLabel(percentage: real)
    | LegendLabel(title: string)

  /** One appended SVG element, with its geometry attributes of number type
      N. Colours, fonts, radii and anchors are not modelled. */
  datatype Primitive<N> =
    | Rect(role: Role, x: N, y: N, width: N, height: N)
    | Text(content: Content, x: N, y: N)
    | Path(x1: N, y1: N, x2: N, y2: N)

  predicate IsTrack<N>(p: Primitive<N>) { p.Rect? && p.role == Track }
  predicate IsFill<N>(p: Primitive<N>) { p.Rect? && p.role == Fill }
  predicate IsConversionBadge<N>(p: Primitive<N>) { p.Rect? && p.role == ConversionBadge }
  predicate IsDropOffBadge<N>(p: Primitive<N>) { p.Rect? && p.role == DropOffBadge }
  predicate IsSwatch<N>(p: Primitive<N>) { p.Rect? && p.role == LegendSwatch }
  predicate IsStageLabel<N>(p: Primitive<N>) { p.Text? && p.content.StageLabel? }
  predicate IsCountLabel<N>(p: Primitive<N>) { p.Text? && p.content.CountLabel? }
  predicate IsAcvLabel<N>(p: Primitive<N>) { p.Text? && p.content.AcvLabel? }
  predicate IsConversionLabel<N>(p: Primitive<N>) { p.Text? && p.content.ConversionLabel? }
  predicate IsDropOffLabel<N>(p: Primitive<N>) { p.Text? && p.content.DropOffLabel? }
  predicate IsConnector<N>(p: Primitive<N>) { p.Path? }

  /** How many elements of s satisfy p. */
  function Count<N>(s: seq<Primitive<N>>, p: Primitive<N> -> bool): (c: nat)
  {
    if |s| == 0 then 0 else Count(s[..|s| - 1], p) + (if p(s[|s| - 1]) then 1 else 0)
  }

  lemma {:induction false} CountConcat<N>(a: seq<Primitive<N>>, b: seq<Primitive<N>>, p: Primitive<N> -> bool)
    ensures Count(a + b, p) == Count(a, p) + Count(b, p)
    decreases |b|
  {
    if |b| > 0 {
      CountConcat(a, b[..|b| - 1], p);
      assert (a + b)[..|a + b| - 1] == a + b[..|b| - 1];
    } else {
      assert a + b == a;
    }
  }

  function Ind(b: bool): nat
  {
    if b then 1 else 0
  }

  lemma CountOne<N>(a: Primitive<N>, p: Primitive<N> -> bool)
    ensures Count([a], p) == Ind(p(a))
  {
    assert [a][..0] == [];
  }

  lemma CountTwo<N>(a: Primitive<N>, b: Primitive<N>, p: Primitive<N> -> bool)
    ensures Count([a, b], p) == Ind(p(a)) + Ind(p(b))
  {
    assert [a, b][..1] == [a];
    CountOne(a, p);
  }

  lemma CountThree<N>(a: Primitive<N>, b: Primitive<N>, c: Primitive<N>, p: Primitive<N> -> bool)
    ensures Count([a, b, c], p) == Ind(p(a)) + Ind(p(b)) + Ind(p(c))
  {
    assert [a, b, c][..2] == [a, b];
    CountTwo(a, b, p);
  }

  lemma CountFour<N>(a: Primitive<N>, b: Primitive<N>, c: Primitive<N>, d: Primitive<N>, p: Primitive<N> -> bool)
    ensures Count([a, b, c, d], p) == Ind(p(a)) + Ind(p(b)) + Ind(p(c)) + Ind(p(d))
  {
    assert [a, b, c, d][..3] == [a, b, c];
    CountThree(a, b, c, p);
  }
}
