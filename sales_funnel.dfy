/** The dashboard page: its breakpoint classifier, its data/loading/error
    state and the load that updates it, the choice of what to render, the
    chart container's height and the stage table. */
module SalesFunnel {
  import opened FunnelTypes
  import opened StageOrder
  import opened Metrics
  import Geometry
  import ResponsiveChart

  // ---------------------------------------------------------------------
  // Breakpoints

  const MobileBelow: int := 640
  const DesktopFrom: int := 1024
  const FourKFrom: int := 3840

  datatype Breakpoints = Breakpoints(isMobile: bool, isTablet: bool, isDesktop: bool, is4K: bool)

  /** The window width the classifier starts from: the browser's inner
      width, or 0 when rendered without a window. */
  function InitialWidth(hasWindow: bool, innerWidth: int): int
  {
    if hasWindow then innerWidth else 0
  }

  /** The classification of a window width. */
  function UseResponsive(width: int): (b: Breakpoints)
    ensures b.isMobile <==> width < 640
    ensures b.isTablet <==> 640 <= width < 1024
    ensures b.isDesktop <==> width >= 1024
    ensures b.is4K <==> width >= 3840
  {
    Breakpoints(width < MobileBelow, MobileBelow <= width && width < DesktopFrom,
                width >= DesktopFrom, width >= FourKFrom)
  }

  /** Every width is exactly one of mobile, tablet and desktop, and 4K is a
      kind of desktop. */
  lemma ExactlyOneClass(width: int)
    ensures var b := UseResponsive(width);
      && (b.isMobile || b.isTablet || b.isDesktop)
      && !(b.isMobile && b.isTablet) && !(b.isMobile && b.isDesktop) && !(b.isTablet && b.isDesktop)
    ensures UseResponsive(width).is4K ==> UseResponsive(width).isDesktop && !UseResponsive(width).isMobile
  {
  }

  /** Without a window the page classifies itself as mobile. */
  lemma NoWindowIsMobile(innerWidth: int)
    ensures UseResponsive(InitialWidth(false, innerWidth)) == Breakpoints(true, false, false, false)
  {
  }

  /** The height of the chart container, 4K taking precedence. */
  function ContainerHeight(b: Breakpoints): int
  {
    if b.is4K then 700 else if b.isMobile then 300 else 400
  }

  /** The container height as a function of the window width. */
  lemma ContainerHeightByWidth(width: int)
    ensures ContainerHeight(UseResponsive(width)) == if width >= 3840 then 700 else if width < 640 then 300 else 400
  {
  }

  /** The container against the height the chart inside it measures for
      itself, assuming the chart's media flags are the page's own (they are
      not from 600 to 639, see ContainerAgainstChartByWidth): a mobile
      or desktop chart fills its container exactly, while a 4K chart is 800
      high inside a 700-high container, 100 taller. */
  lemma ContainerAgainstChart(b: Breakpoints, clientWidth: real)
    ensures var chart := ResponsiveChart.MeasuredDimensions(clientWidth, Geometry.SizeClassOf(b.is4K, b.isMobile));
      && (b.is4K ==> chart.height == ContainerHeight(b) as real + 100.0)
      && (!b.is4K ==> chart.height == ContainerHeight(b) as real)
  {
  }

  /** The chart's own small-screen query, `theme.breakpoints.down('sm')`,
      matches below 600 in the default theme, which the page does not
      replace; its 4K query matches from 3840, like the page's. */
  const ChartMobileBelow: int := 600

  /** The container against the chart's measured height when each side
      classifies the window width by its own queries: in the band from 600
      to 639 the page already builds the 300-high mobile container while
      the chart still measures itself 400 high as a desktop chart. */
  lemma ContainerAgainstChartByWidth(width: int, clientWidth: real)
    ensures var chart := ResponsiveChart.MeasuredDimensions(clientWidth, Geometry.SizeClassOf(width >= FourKFrom, width < ChartMobileBelow));
      && (width >= 3840 ==> chart.height == ContainerHeight(UseResponsive(width)) as real + 100.0)
      && (ChartMobileBelow <= width < MobileBelow ==> chart.height == 400.0 && ContainerHeight(UseResponsive(width)) == 300)
      && (width < ChartMobileBelow || MobileBelow <= width < 3840 ==> chart.height == ContainerHeight(UseResponsive(width)) as real)
  {
  }

  // ---------------------------------------------------------------------
  // Render branches

  const LoadError: string := "Failed to load funnel data"
  const NoData: string := "No data available"

  /** What the page renders. */
  datatype View = Skeleton | ErrorMessage(text: string) | Dashboard(data: FunnelData)

  /** JavaScript truthiness of a nullable string: null and "" are falsy. */
  predicate Truthy(s: Option<string>)
  {
    s.Some? && s.value != ""
  }

  function RenderView(loading: bool, error: Option<string>, data: Option<FunnelData>): View
  {
    if loading then Skeleton
    else if Truthy(error) || data.None? then ErrorMessage(if Truthy(error) then error.value else NoData)
    else Dashboard(data.value)
  }

  /** While loading the skeleton shows whatever else the state holds; then
      a non-empty error shows itself, missing data without one shows the
      default text, and only data with no error reaches the dashboard. */
  lemma RenderBranches(loading: bool, error: Option<string>, data: Option<FunnelData>)
    ensures RenderView(loading, error, data) == Skeleton <==> loading
    ensures !loading && Truthy(error) ==> RenderView(loading, error, data) == ErrorMessage(error.value)
    ensures !loading && !Truthy(error) && data.None? ==> RenderView(loading, error, data) == ErrorMessage(NoData)
    ensures RenderView(loading, error, data).Dashboard? <==> !loading && !Truthy(error) && data.Some?
    ensures RenderView(loading, error, data).Dashboard? ==> RenderView(loading, error, data).data == data.value
  {
  }

  // ---------------------------------------------------------------------
  // Page state and the load

  /** How the fetch ends: the response body, or a thrown error (any
      network failure or non-2xx status, the server's 500 included). */
  datatype FetchOutcome = Fetched(result: FunnelData) | FetchFailed

  /** What the fetch sees of a server answer: the error object travels
      with status 500, which the client turns into a thrown error. */
  function Transport(r: FunnelResult): (o: FetchOutcome)
    ensures o.Fetched? <==> r.Ok?
    ensures o.Fetched? ==> o.result == r.data
  {
    match r
    case Ok(d) => Fetched(d)
    case Error(_) => FetchFailed
  }

  class FunnelView {
    var data: Option<FunnelData>
    var loading: bool
    var error: Option<string>

    /** The state before the first load: nothing, loading. */
    constructor()
      ensures data == None && loading && error == None
    {
      data := None;
      loading := true;
      error := None;
    }

    /** loadData: set loading, then record the data or the error message,
        and finally clear loading. */
    method LoadData(outcome: FetchOutcome)
      modifies this
      ensures !loading
      ensures outcome.Fetched? ==> data == Some(outcome.result) && error == old(error)
      ensures outcome.FetchFailed? ==> data == old(data) && error == Some(LoadError)
    {
      loading := true;
      match outcome {
        case Fetched(result) =>
          data := Some(result);
        case FetchFailed =>
          error := Some(LoadError);
      }
      loading := false;
    }

    function Render(): View
      reads this
    {
      RenderView(loading, error, data)
    }
  }

  /** The page's life: it first renders the skeleton; after its one load
      exactly one of data and error is set, and it renders the dashboard
      with the fetched data or the load error message. */
  method Mount(outcome: FetchOutcome) returns (first: View, settled: View, hasData: bool, hasError: bool)
    ensures first == Skeleton
    ensures hasData != hasError
    ensures hasData <==> outcome.Fetched?
    ensures outcome.Fetched? ==> settled == Dashboard(outcome.result)
    ensures outcome.FetchFailed? ==> settled == ErrorMessage(LoadError)
  {
    var view := new FunnelView();
    first := view.Render();
    view.LoadData(outcome);
    hasData := view.data.Some?;
    hasError := view.error.Some?;
    settled := view.Render();
  }

  // ---------------------------------------------------------------------
  // The stage table

  datatype Cell = Dash | Percent(value: real)

  datatype StageRow = StageRow(stage: string, count: int, acv: string, conversion: Cell, dropOff: Cell)

  function RowOf(item: FunnelItem, index: nat): StageRow
  {
    StageRow(item.name, item.count, item.formattedACV,
             if index > 0 then Percent(item.conversionRate) else Dash,
             if index > 0 then Percent(item.dropOffPercentage) else Dash)
  }

  function TableRows(items: seq<FunnelItem>): seq<StageRow>
  {
    seq(|items|, i requires 0 <= i < |items| => RowOf(items[i], i))
  }

  /** One row per stage, in order, carrying its label, count and formatted
      ACV; the first row shows dashes in both rate columns and every later
      row shows its conversion and drop-off percentages. */
  lemma TableRowsSpec(items: seq<FunnelItem>)
    ensures |TableRows(items)| == |items|
    ensures forall i :: 0 <= i < |items| ==>
      var r := TableRows(items)[i];
      && r.stage == items[i].name && r.count == items[i].count && r.acv == items[i].formattedACV
      && (r.conversion == Dash <==> i == 0)
      && (r.dropOff == Dash <==> i == 0)
      && (i > 0 ==> r.conversion == Percent(items[i].conversionRate) && r.dropOff == Percent(items[i].dropOffPercentage))
  {
  }

  /** From the data file to the table: the page reaches the dashboard
      exactly when there are records, and its table then lists them in
      funnel order, one row each, with their labels and counts. */
  lemma ServedTable(records: seq<StageRecord>, formatCurrency: real -> string)
    requires NonZeroBase(SortByStage(records))
    ensures Transport(ProcessRecords(records, formatCurrency)).Fetched? <==> |records| > 0
    ensures |records| > 0 ==>
      var rows := TableRows(ProcessRecords(records, formatCurrency).data.funnelData);
      && |rows| == |records|
      && forall i :: 0 <= i < |rows| ==>
           rows[i].stage == SortByStage(records)[i].name && rows[i].count == SortByStage(records)[i].count
  {
    ProcessRecordsShape(records, formatCurrency);
    if |records| > 0 {
      TableRowsSpec(ProcessRecords(records, formatCurrency).data.funnelData);
    }
  }
}
