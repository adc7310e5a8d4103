# Sales funnel dashboard, modelled in Dafny

This project models the core of a small sales-funnel dashboard. An Express
server reads the stage records of a funnel (Suspect, Qualify, Demo, Proposal,
Negotiate, Won). It sorts them into funnel order and derives conversion,
share-of-base and drop-off metrics for each stage: the percentages are
rounded to one decimal, and the drop-off count and ACV are plain differences.
It also builds a summary from the first and last stages. A React page fetches
the result and renders it in one of three branches: a skeleton while loading,
an error card, or the dashboard. The dashboard holds a d3 funnel chart and a
stage table.

The model has these modules, one concern each:

- `Rounding` (rounding.dfy): `parseFloat(x.toFixed(1))` on exact reals, rounding half away from zero.
- `FunnelTypes` (funnel_types.dfy): the raw stage record, `FunnelItem`, `FunnelSummary`, `FunnelData`, and the server's result (`Ok` or the error object).
- `StageOrder` (stage_order.dfy):
  - the fixed stage order and `indexOf`;
  - the in-place sort of the parsed array, as an insertion sort over an `array`;
  - the stable sort function that specifies it.
- `Metrics` (metrics.dfy): `processData`, meaning the sort, the per-stage `map` and the summary. A method sorts the array in place and returns the result.
- `Geometry` (geometry.dfy):
  - the size classes;
  - the two d3 scales written as formulas;
  - the SVG primitives (rect, text, path) that both charts append;
  - counting primitives of a kind.
- `ResponsiveChart` (responsive_chart.dfy):
  - The drawing effect of `ResponsiveFunnelChart`: the per-class constants, inner size and bar height.
  - The per-stage loop: track, fill, texts, conversion badge, connector with its gap threshold and drop-off badge.
  - The legend loop.
  - Each loop is a method that appends one primitive at a time. Each method is proved equal to a function of its inputs.
- `SimpleChart` (simple_chart.dfy): the fixed-margin `FunnelChart`. Its bar height is taken from the first two points of the scale, so with a single stage the bar height and every y coordinate are NaN, while the x coordinates stay numbers. Numbers are therefore modelled as finite-or-NaN.
- `SalesFunnel` (sales_funnel.dfy): the page.
  - the breakpoint classifier;
  - a `FunnelView` class holding the `data`/`loading`/`error` state, with the load that updates it;
  - the render-branch choice;
  - the chart container height;
  - the table rows.

Numbers are exact `real`s, and counts are `int`s.

### Assumptions the model makes

- **Scales.**
  - `xScale(v)` is `v / 100 · width`.
  - `yScale` of the i-th of n labels is `(i + 0.5) · height / n`. That is d3's point scale with padding 0.5, which assumes the labels are distinct.
- **One size class.** The responsive chart takes one size class (Mobile, Desktop, FourK) in place of its two media-query flags.
  - Every ternary in the chart tests `is4K` before `isMobile`.
  - The one plain `!isMobile` test, for the ACV text, agrees with the class as long as the two flags never hold together. `(min-width: 3840px)` and the small-screen query cannot both match.
- **Currency formatting.** `formatCurrency` is a parameter `real -> string`.
- **Stable sort.** `data.sort` with the comparator `indexOf(a) - indexOf(b)` is taken to be stable, which JavaScript's sort is.

### Behaviour of the code worth knowing

- **Rounded columns may not sum to 100.** Nothing forces `conversionRate + dropOffPercentage` to 100 for a later stage. Both columns are rounded from the unrounded rate. In exact real arithmetic and for 0 ≤ diffRate ≤ 1 they sum to 100.0, except on an exact half tie, where both round up and sum to 100.1. `Metrics.ConversionPlusDropOff` states this rule. Nothing bounds diffRate, and outside that range a tie sums to 100.0: with diffRate 1.0125 the rate 101.25 rounds to 101.3 and the drop-off -1.25 away from zero to -1.3 (`Rounding.ComplementTieOutOfRange`); 101.25 and -1.25 are exact binary fractions, so the program shows the same two numbers. `Rounding.ComplementTieExample` and `Metrics.ConversionPlusDropOffTie` exhibit it with diffRate 0.1225: 12.25 and 87.75 are exact binary fractions, so the program's doubles reach the same 12.3% + 87.8%. With other inputs the double products differ from the exact ones, and the program can also give 99.9 (diffRate 0.0015 shows 0.1% + 99.8%). The model does not capture that case.
- **The first stage's conversionRate is not forced to 0.** It is `Round1(diffRate · 100)` of the first record.
- **No data errors apart from empty input.**
  - Unknown labels are not rejected: `indexOf` gives -1, so those records sort before "Suspect" (`StageOrder.UnknownFirst`).
  - A zero base count or ACV is not rejected either. Here the model requires a non-zero base rather than inventing the missing guard.
  - For well-formed records, the only error result is the one for an empty array.
- **Tracks are drawn in every size class.** The responsive chart draws the background track for every class, mobile included.
- **The container and the chart can disagree on height.** The page gives the 4K chart a 700-high container, but the chart measures itself 800 high. The page calls a window mobile below 640, the chart (MUI's `down('sm')` in the default theme) below 600. So from 600 to 639 the page builds a 300-high container while the chart measures itself 400 high with desktop margins (`SalesFunnel.ContainerAgainstChartByWidth`). Outside 4K and that band the two heights agree; where the two mobile flags agree they agree in every class but 4K (`SalesFunnel.ContainerAgainstChart`).
- **The server's 500 becomes a fetch failure.** The error object reaches the page only as a thrown fetch error. The page then shows "Failed to load funnel data", not the server's message.

### An observation about the connectors

In the responsive chart, a connector's start uses `prevY + barHeight/2`. `prevY` is already the previous bar's bottom edge, so the connector starts half a bar *below* the previous bar. It ends five units above the current bar. Whenever the gap test passes with a gap below `barHeight/2 + 5`, the line therefore points upward. Six stages on desktop show this: the gap is 17.5, which passes the test, while bars are 245/6 tall (`ResponsiveChart.SixStageDesktopConnectors`). The fixed-margin chart draws the same endpoints (`SimpleChart.ConnectorEndpoints`). The model keeps these endpoints as written. Nothing indicates a different intent, so this is not recorded as a finding.

## Model

Each model function (for example `Metrics.Annotate`, `StageOrder.SortByStage`, `ResponsiveChart.ChartFrame`, `SalesFunnel.RenderView`) is specified by the lemma and method rows that cite its source lines; the table lists those members.

| member | source | states |
|---|---|---|
| Rounding.Round1 | server/index.js:33-38 | `toFixed(1)` then `parseFloat`: the result is a whole number of tenths, at most 0.05 from x, and on a tie the tenth farther from zero |
| Rounding.Round1Unique | server/index.js:33-38 | those three properties determine the rounded value uniquely |
| Rounding.Round1OfTenths | server/index.js:33-38 | a value that already has one decimal is returned unchanged |
| Rounding.Round1Idempotent | server/index.js:33-38 | rounding an already rounded metric changes nothing |
| Rounding.ComplementRounding | server/index.js:24-38 | for 0 ≤ c ≤ 100, a percentage c and its complement 100 − c, rounded separately, sum to 100, or to 100.1 exactly on a half tie |
| Rounding.ComplementTieExample | server/index.js:24-38 | 12.25 rounds to 12.3 and 87.75 to 87.8, so the two sum to 100.1 |
| Rounding.ComplementTieOutOfRange | server/index.js:24-38 | outside 0..100 a tie sums to 100: 101.25 is a half tie, rounds to 101.3, and its complement -1.25 rounds to -1.3 |
| StageOrder.IndexOf | server/index.js:18 | `indexOf`: -1 exactly when the label is absent, otherwise the first position holding it |
| StageOrder.KeyRange | server/index.js:17-18 | sort keys lie in -1..5; -1 exactly for labels outside the six-stage order; 0 exactly for "Suspect" |
| StageOrder.InsertMultiset | server/index.js:18 | an insertion step adds exactly the inserted record |
| StageOrder.InsertSorted | server/index.js:18 | an insertion step keeps the sequence ordered by key |
| StageOrder.InsertFilter | server/index.js:18 | an insertion step keeps the relative order of the records of every key |
| StageOrder.SortSortedPermutation | server/index.js:18 | the sort yields a permutation of its input, ordered by the comparator's key |
| StageOrder.SortStable | server/index.js:18 | the sort is stable: the records of each key keep their input order |
| StageOrder.SortByStageSpec | server/index.js:17-18 | sorting by stage gives a permutation with non-decreasing `funnelOrder.indexOf(label)`, stable for equal keys |
| StageOrder.UnknownFirst | server/index.js:17-18 | after the sort, every record with an unknown label comes before every record of a known stage |
| StageOrder.SortedUnique | server/index.js:18 | a key-ordered sequence is determined by its per-key subsequences, so the stable sort's output is the only valid one |
| StageOrder.SortInvariant | server/index.js:18 | inputs that agree stage by stage on the order of each stage's records sort to the same output |
| StageOrder.SortThree | server/index.js:18 | the input [a, b, c] whose keys are ordered b < c < a sorts to [b, c, a] (the first record moves to the end) |
| StageOrder.SortExample | server/index.js:17-18 | the shuffled input Won, Suspect, Qualify sorts to Suspect, Qualify, Won |
| StageOrder.InsertAt | server/index.js:18 | one in-place insertion step: the prefix up to and including position i becomes the old sorted prefix with a[i] inserted, and the rest of the array is unchanged |
| StageOrder.SortInPlace | server/index.js:18 | `data.sort` in place: the array ends up equal to the stable sort of its old contents |
| Metrics.ProcessData | server/index.js:12-55 | sorts the array in place into funnel order and returns the result computed from the sorted records |
| Metrics.ProcessRecordsShape | server/index.js:18-53 | the result is the error object "Failed to process data" exactly when there are no records; otherwise there is one item per record, in sorted order, each carrying its record's label, count, ACV and both rates, `diffacvRate` included, plus the formatted ACV |
| Metrics.ItemsInFunnelOrder | server/index.js:17-41 | the items' stage indexes never decrease |
| Metrics.FirstStage | server/index.js:20-38 | the first stage has zero drop-off count, ACV and percentage; its conversion rate is its own rounded diffRate; both of its totals are exactly 100 |
| Metrics.LaterStage | server/index.js:24-38 | for a later stage: the drop-offs are the differences to the previous sorted stage; the drop-off percentage is the rounded complement of the unrounded conversion rate; the totals are rounded shares of the first stage's count and ACV |
| Metrics.ConversionPlusDropOff | server/index.js:24-38 | for a later stage with 0 ≤ diffRate ≤ 1, conversion rate plus drop-off percentage is 100, or 100.1 exactly when 1000·diffRate ends in .5 |
| Metrics.ConversionPlusDropOffTie | server/index.js:24-38 | a stage with diffRate 0.1225 shows 12.3% conversion and 87.8% drop-off, 100.1% together |
| Metrics.DropOffPrefix | server/index.js:27-28 | over the first k stages, the drop-off counts (ACVs) sum to the first count (ACV) minus the k-th |
| Metrics.DropOffTelescopes | server/index.js:27-28 | over the whole funnel, the drop-offs sum to the first stage's count (ACV) minus the last stage's |
| Metrics.SummaryFigures | server/index.js:43-50 | total leads, formatted total ACV, conversion rate and win rate come from the first and last stages; a single stage gives 100 for both rates |
| Metrics.WorkedExample | server/index.js:17-50 | the three-stage example: ACV shares 100/60/20, conversion 0/40/12.5, drop-off 60/87.5, drop-off counts 600/350, summary rates 5.0 and 20.0 |
| Geometry.SizeClassOf | client/components/ResponsiveFunnelChart.tsx:15-16 | 4K exactly when the 4K query matches; mobile exactly when it does not and the small-screen query does |
| Geometry.XScaleEnds | client/components/ResponsiveFunnelChart.tsx:55-58 | the linear scale maps 0, 50 and 100 to 0, half and all of the width |
| Geometry.PointSpacing | client/components/ResponsiveFunnelChart.tsx:60-64 | consecutive stage points are one step, height/n, apart |
| Geometry.PointPadding | client/components/ResponsiveFunnelChart.tsx:60-64 | the first and last points sit half a step inside the range |
| ResponsiveChart.MeasuredDimensions | client/components/ResponsiveFunnelChart.tsx:19-25 | the stored width is the container's client width, and the stored height is 800 for 4K, 300 for mobile and 400 otherwise |
| ResponsiveChart.StyleByFlags | client/components/ResponsiveFunnelChart.tsx:41-69 | outer height 800/300/400, margins, bar cap 80/30/50 and legend step 200/90/150, with 4K taking precedence over mobile; the drop-off badge rises by half its height above the connector midpoint |
| ResponsiveChart.FrameRule | client/components/ResponsiveFunnelChart.tsx:35-53 | nothing is drawn for no stages or zero width; otherwise the plot group sits at the top-left margin, the inner size is the outer size minus the margins, and the legend starts the class's gap below the inner area |
| ResponsiveChart.MeasuredInnerHeight | client/components/ResponsiveFunnelChart.tsx:19-49 | with the measured dimensions the inner height is 700, 250 or 350 |
| ResponsiveChart.BarHeightBounds | client/components/ResponsiveFunnelChart.tsx:66-69 | the bar height is the smaller of 70% of a step and the class's cap, exceeds neither, is positive for a positive height, and leaves a gap of at least 30% of a step |
| ResponsiveChart.ConnectorGap | client/components/ResponsiveFunnelChart.tsx:142-146 | the distance compared with 15, between the previous bar's bottom and this bar's top is the same gap for every pair of stages |
| ResponsiveChart.StageBars | client/components/ResponsiveFunnelChart.tsx:71-109 | each stage starts with a full-width track, a fill as wide as xScale(totalConversionACV) on the same band, and label and count texts on the stage's point |
| ResponsiveChart.AcvPlacement | client/components/ResponsiveFunnelChart.tsx:111-119 | the ACV text is drawn exactly when the class is not mobile, ten units right of the fill |
| ResponsiveChart.BadgePlacement | client/components/ResponsiveFunnelChart.tsx:121-140 | the conversion badge (a rect at width + 5 and its rate text) is drawn exactly for the stages after the first |
| ResponsiveChart.ConnectorPlacement | client/components/ResponsiveFunnelChart.tsx:142-176 | the connector is drawn exactly when i > 0 and the gap exceeds 15, with the source's endpoints; the drop-off badge is drawn exactly when additionally the drop-off percentage is positive, centred on the midpoint of the connector's y endpoints |
| ResponsiveChart.DrawConnector | client/components/ResponsiveFunnelChart.tsx:142-178 | appends exactly the connector primitives its specification function gives |
| ResponsiveChart.DrawStage | client/components/ResponsiveFunnelChart.tsx:71-178 | one loop iteration appends exactly the stage's primitives, in order |
| ResponsiveChart.DrawLegend | client/components/ResponsiveFunnelChart.tsx:211-230 | the legend loop appends a swatch and a title per entry |
| ResponsiveChart.DrawChart | client/components/ResponsiveFunnelChart.tsx:35-230 | the drawing effect produces exactly the chart frame: no drawing, or the plot and legend groups |
| ResponsiveChart.StageBarCounts | client/components/ResponsiveFunnelChart.tsx:71-119 | one track, one fill, one stage-name label and one count label per stage, and one ACV text unless mobile |
| ResponsiveChart.StageBadgeCounts | client/components/ResponsiveFunnelChart.tsx:121-178 | per stage: one conversion badge exactly when not first, one connector exactly when additionally the gap exceeds 15, one drop-off badge exactly when additionally the drop-off is positive, and one drop-off text with each drop-off badge |
| ResponsiveChart.PlotBarCounts | client/components/ResponsiveFunnelChart.tsx:71-119 | the plot holds n tracks, n fills, and n ACV texts or none |
| ResponsiveChart.PlotBadgeCounts | client/components/ResponsiveFunnelChart.tsx:121-152 | the plot holds n - 1 conversion badges, and n - 1 connectors or none, depending on the gap |
| ResponsiveChart.PlotDropOffCounts | client/components/ResponsiveFunnelChart.tsx:154-176 | drop-off badges appear only with connectors, one per later stage with a positive drop-off percentage |
| ResponsiveChart.PositiveDropOffs | client/components/ResponsiveFunnelChart.tsx:154 | the count of stages 1 .. k-1 with a positive drop-off percentage is below k, is 0 exactly when none of them has one, and is k-1 exactly when all of them have one (the first stage never counts) |
| ResponsiveChart.SingleStage | client/components/ResponsiveFunnelChart.tsx:142-148 | a one-stage chart has no connector, no conversion badge and no drop-off badge |
| ResponsiveChart.LegendLayout | client/components/ResponsiveFunnelChart.tsx:211-230 | k legend iterations give 2k elements and k swatches; elements 2j and 2j + 1 are the j-th entry's swatch and title |
| ResponsiveChart.LegendEntries | client/components/ResponsiveFunnelChart.tsx:202-230 | the legend has six elements, three swatches, the j-th at x = j · step |
| ResponsiveChart.LegendOfChart | client/components/ResponsiveFunnelChart.tsx:202-212 | a drawn chart has exactly three legend entries, at x = j·200 on 4K, j·90 on mobile, j·150 otherwise |
| ResponsiveChart.SixStageDesktopConnectors | client/components/ResponsiveFunnelChart.tsx:142-148 | six stages on desktop have bar height 245/6 and gap 17.5; every connector is drawn and ends higher than it starts |
| SimpleChart.DrawStage | client/components/FunnelChart.tsx:29-85 | one loop iteration appends exactly the stage's primitives |
| SimpleChart.DrawChart | client/components/FunnelChart.tsx:12-86 | the drawing effect produces exactly the chart frame |
| SimpleChart.FrameRule | client/components/FunnelChart.tsx:13-22 | nothing is drawn exactly for no stages; margins 20/20/30/20 give an inner height of 350 and a width 40 less than the container's, and the plot sits at (20, 20) |
| SimpleChart.BarHeightRule | client/components/FunnelChart.tsx:25-27 | with two or more stages the bar height is 70% of the distance between the first two points, 245/n; with one stage it is NaN |
| SimpleChart.StageFill | client/components/FunnelChart.tsx:29-64 | each stage has one fill of width xScale(totalConversionACV) on its band and label, count and ACV texts on its point |
| SimpleChart.ConnectorEndpoints | client/components/FunnelChart.tsx:66-85 | every later stage gets a conversion text at width + 5 and a connector with no gap test, with the source's endpoints |
| SimpleChart.StageKinds | client/components/FunnelChart.tsx:29-85 | per stage: one fill and one ACV text, no track or badges, and a conversion text and a connector exactly when not first |
| SimpleChart.PlotCounts | client/components/FunnelChart.tsx:29-86 | k stages give k fills, k ACV texts, and k - 1 conversion texts and connectors |
| SimpleChart.PlotHasNoBadges | client/components/FunnelChart.tsx:29-86 | the chart draws no track, no conversion badge and no drop-off badge |
| SimpleChart.SingleStage | client/components/FunnelChart.tsx:27-64 | one stage draws a bar and three texts whose y (and the bar's height) is NaN while every x is a number, and no connector |
| SimpleChart.Add | client/components/FunnelChart.tsx:27-30 | a sum is a number exactly when both operands are |
| SalesFunnel.UseResponsive | client/components/SalesFunnel.tsx:35-40 | mobile below 640, tablet from 640 below 1024, desktop from 1024, 4K from 3840 |
| SalesFunnel.ExactlyOneClass | client/components/SalesFunnel.tsx:35-39 | every width is exactly one of mobile, tablet and desktop; 4K implies desktop and not mobile |
| SalesFunnel.NoWindowIsMobile | client/components/SalesFunnel.tsx:20-22 | without a window the width is 0 and the page classifies itself as mobile |
| SalesFunnel.ContainerHeightByWidth | client/components/SalesFunnel.tsx:154 | the chart container is 700 high from 3840, 300 below 640, 400 otherwise |
| SalesFunnel.ContainerAgainstChart | client/components/SalesFunnel.tsx:154 | with the chart's media flags equal to the page's, a mobile or desktop chart's measured height equals its container's, and a 4K chart (800) is 100 taller than its 700-high container |
| SalesFunnel.ContainerAgainstChartByWidth | client/components/SalesFunnel.tsx:154 | with each side classifying the width by its own queries (page below 640, chart below 600, both 4K from 3840): a 4K chart is 100 taller than its container, from 600 to 639 a 400-high chart sits in a 300-high container, and at every other width the heights agree |
| SalesFunnel.RenderBranches | client/components/SalesFunnel.tsx:61-97 | the skeleton is shown exactly while loading; then a non-empty error shows itself, missing data without an error shows "No data available", and only data without an error reaches the dashboard |
| SalesFunnel.Transport | server/index.js:66-72 | the page receives the data exactly when the server produced it; the error object arrives as a failed fetch |
| SalesFunnel.FunnelView.constructor | client/components/SalesFunnel.tsx:14-16 | the initial state: no data, loading, no error |
| SalesFunnel.FunnelView.LoadData | client/components/SalesFunnel.tsx:45-58 | afterwards loading is false and either the data or the error message "Failed to load funnel data" has been set, the other left as it was |
| SalesFunnel.Mount | client/components/SalesFunnel.tsx:45-97 | the page first shows the skeleton; after its load exactly one of data and error is set, and it shows the dashboard with the fetched data or the load error |
| SalesFunnel.TableRowsSpec | client/components/SalesFunnel.tsx:175-187 | one row per stage, in order, with label, count and formatted ACV; row 0 shows "-" in both rate columns and every later row shows its conversion and drop-off percentages |
| SalesFunnel.ServedTable | client/components/SalesFunnel.tsx:175-187 | from raw records to the table: the dashboard is reached exactly when there are records, with one row per record in funnel order |

## Left out

- Metrics.NonZeroBase: the metric functions and `Metrics.ProcessData` require a non-zero base count and ACV. The server divides by them without a guard, and the NaN and Infinity that JavaScript produces for a zero base are not modelled.
- SalesFunnel.ContainerAgainstChart: assumes the chart's two media flags equal the page's breakpoint flags. They differ for window widths 600 to 639, where the page is mobile and the chart is not; `SalesFunnel.ContainerAgainstChartByWidth` covers that band.
- Rounding.Round1: rounds the exact real value. The double-rounding artefacts of `toFixed` on binary floating point (for example 1.005) are not modelled; all IEEE-754 effects are out of scope. So `Rounding.ComplementRounding` and `Metrics.ConversionPlusDropOff` hold in exact reals only: for diffRate 0.0015 the program's product `0.0015 * 100` falls just below 0.15, and its columns sum to 99.9.
- **Malformed records are not modelled.** The model takes a sequence of well-formed stage records. A data file whose top level is not an array, or one holding a `null` entry, makes the server's sort or field access throw, and the route answers with the `Failed to process data` error; the model has no such input.
- Geometry.SizeClassOf: the responsive chart takes one size class. The case where both media flags hold at once, in which the ACV text would be hidden on a 4K class, is not modelled, because the two queries cannot both match.
- **File and network I/O are not modelled.**
  - Reading and parsing `data.json`, and the sample-data bootstrap, are file I/O. The model starts from the parsed records.
  - The Express setup, CORS and `listen` are server plumbing. The route's status-500 rule appears only as `SalesFunnel.Transport`.
  - The axios call in `client/services/api.ts` stands as a fetch outcome (data, or a thrown error). The model does not contain the network call.
- **Currency formatting** (`formatCurrency` with `Intl.NumberFormat`) is a foreign library call. It is a function parameter.
- **React and browser machinery are not modelled.**
  - Hooks and effects, and the `useState` setters are not modelled, nor the resize listeners and their cleanup.
  - Neither are the asynchronous ordering of the load and the `console.error` logging.
  - The chart's initial `800 × 400` dimensions state, which is replaced on the first measurement, is also left out.
  - Dimensions, size class and fetch outcome are inputs.
- **DOM selection and clearing by d3** are left out. Each run of an effect is modelled as producing a fresh frame.
- **Conversion of numbers to text** in template literals (`${count}`, `${rate}%`, `-${…}%`) is not modelled. Text elements carry the number itself.
- **Cosmetics are left out:** colours, fonts, corner radii, opacity, stroke widths, text anchors and `dy`, the arrow-marker definitions, and the chart title text. So are the page shell (`client/app/page.tsx`) and the card layout.
- **The summary cards** (client/components/SalesFunnel.tsx lines 99-124) are left out. They only display the four summary fields whose values `Metrics.SummaryFigures` states.
- **Duplicate stage labels** are not modelled. With them, d3's point scale gives one position per distinct label; the model's formula assumes distinct labels.
