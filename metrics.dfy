/** The server's metrics pipeline, `processData`: sort the raw stages into
    funnel order, derive each stage's metrics against the first stage and
    the previous one, and summarise the first and last stages. */
module Metrics {
  import opened Rounding
  import opened FunnelTypes
  import opened StageOrder

  const ProcessError: string := "Failed to process data"

  /** The first (sorted) stage has a non-zero count and ACV, so that the
      ratios against it are numbers; the server itself has no such guard. */
  predicate NonZeroBase(data: seq<StageRecord>)
  {
    |data| > 0 ==> data[0].count != 0 && data[0].acv != 0.0
  }

  /** The stage at `index` of the sorted data with its derived metrics
      (the body of the `data.map` callback). */
  function Annotate(data: seq<StageRecord>, index: nat, formatCurrency: real -> string): FunnelItem
    requires index < |data| && NonZeroBase(data)
  {
    var item := data[index];
    var totalCount := data[0].count;
    var totalACV := data[0].acv;
    var conversionRate := item.diffRate * 100.0;
    var totalConversionRate := (item.count as real / totalCount as real) * 100.0;
    var totalConversionACV := (item.acv / totalACV) * 100.0;
    var dropOffCount := if index > 0 then data[index - 1].count - item.count else 0;
    var dropOffACV := if index > 0 then data[index - 1].acv - item.acv else 0.0;
    var dropOffPercentage := if index > 0 then 100.0 - conversionRate else 0.0;
    FunnelItem(
      item.name, item.acv, item.count, item.diffRate, item.diffacvRate,
      Round1(conversionRate),
      Round1(totalConversionRate),
      Round1(totalConversionACV),
      dropOffCount,
      dropOffACV,
      Round1(dropOffPercentage),
      formatCurrency(item.acv))
  }

  /** `data.map(...)`: one annotated item per sorted record. */
  function Items(data: seq<StageRecord>, formatCurrency: real -> string): seq<FunnelItem>
    requires NonZeroBase(data)
  {
    seq(|data|, i requires 0 <= i < |data| => Annotate(data, i, formatCurrency))
  }

  function Summarize(data: seq<StageRecord>, formatCurrency: real -> string): FunnelSummary
    requires |data| > 0 && NonZeroBase(data)
  {
    var last := data[|data| - 1];
    FunnelSummary(
      data[0].count,
      formatCurrency(data[0].acv),
      Round1((last.count as real / data[0].count as real) * 100.0),
      Round1((last.acv / data[0].acv) * 100.0))
  }

  /** Everything after the sort. On an empty array `data[0]` is undefined,
      reading `.count` from it throws, and the handler returns the error
      object. */
  function Analyze(data: seq<StageRecord>, formatCurrency: real -> string): FunnelResult
    requires NonZeroBase(data)
  {
    if |data| == 0 then Error(ProcessError)
    else Ok(FunnelData(Items(data, formatCurrency), Summarize(data, formatCurrency)))
  }

  /** processData as a function of the records read from the data file. */
  function ProcessRecords(records: seq<StageRecord>, formatCurrency: real -> string): FunnelResult
    requires NonZeroBase(SortByStage(records))
  {
    Analyze(SortByStage(records), formatCurrency)
  }

  /** processData: sorts the parsed array in place, then builds the result. */
  method ProcessData(data: array<StageRecord>, formatCurrency: real -> string) returns (result: FunnelResult)
    requires NonZeroBase(SortByStage(data[..]))
    modifies data
    ensures data[..] == SortByStage(old(data[..]))
    ensures result == ProcessRecords(old(data[..]), formatCurrency)
  {
    SortInPlace(data, Key);
    result := Analyze(data[..], formatCurrency);
  }

  /** item repeats every field of record (the `...item` spread) and formats
      its ACV. */
  predicate Carries(item: FunnelItem, record: StageRecord, formatCurrency: real -> string)
  {
    && item.name == record.name
    && item.acv == record.acv
    && item.count == record.count
    && item.diffRate == record.diffRate
    && item.diffacvRate == record.diffacvRate
    && item.formattedACV == formatCurrency(record.acv)
  }

  /** The result is the error object exactly when there are no records;
      otherwise it has one item per sorted record, in sorted order, each
      carrying its record's fields. */
  lemma ProcessRecordsShape(records: seq<StageRecord>, formatCurrency: real -> string)
    requires NonZeroBase(SortByStage(records))
    ensures ProcessRecords(records, formatCurrency).Error? <==> |records| == 0
    ensures ProcessRecords(records, formatCurrency).Error? ==>
              ProcessRecords(records, formatCurrency).error == ProcessError
    ensures ProcessRecords(records, formatCurrency).Ok? ==>
              var items := ProcessRecords(records, formatCurrency).data.funnelData;
              && |items| == |records|
              && forall i :: 0 <= i < |items| ==> Carries(items[i], SortByStage(records)[i], formatCurrency)
  {
    SortSortedPermutation(records, Key);
  }

  /** The items come out in funnel order: their labels' indexes in
      FunnelOrder never decrease. */
  lemma ItemsInFunnelOrder(records: seq<StageRecord>, formatCurrency: real -> string, i: nat, j: nat)
    requires NonZeroBase(SortByStage(records))
    requires ProcessRecords(records, formatCurrency).Ok?
    requires i < j < |ProcessRecords(records, formatCurrency).data.funnelData|
    ensures var items := ProcessRecords(records, formatCurrency).data.funnelData;
            IndexOf(FunnelOrder, items[i].name) <= IndexOf(FunnelOrder, items[j].name)
  {
    var sorted := SortByStage(records);
    SortSortedPermutation(records, Key);
    assert Key(sorted[i]) <= Key(sorted[j]);
  }

  /** The first stage has no drop-off, its conversion rate is its own
      diffRate (not forced to 0), and both totals are 100. */
  lemma FirstStage(data: seq<StageRecord>, formatCurrency: real -> string)
    requires |data| > 0 && NonZeroBase(data)
    ensures var first := Items(data, formatCurrency)[0];
            && first.dropOffCount == 0
            && first.dropOffACV == 0.0
            && first.dropOffPercentage == 0.0
            && first.conversionRate == Round1(data[0].diffRate * 100.0)
            && first.totalConversionRate == 100.0
            && first.totalConversionACV == 100.0
  {
    assert (data[0].count as real / data[0].count as real) * 100.0 == 100.0;
    assert (data[0].acv / data[0].acv) * 100.0 == 100.0;
    Round1OfTenths(100.0);
    Round1OfTenths(0.0);
  }

  /** For a later stage, the drop-offs are the differences to the previous
      sorted stage and the drop-off percentage is the rounded complement of
      the unrounded conversion rate. */
  lemma LaterStage(data: seq<StageRecord>, formatCurrency: real -> string, i: nat)
    requires 0 < i < |data| && NonZeroBase(data)
    ensures var item := Items(data, formatCurrency)[i];
            && item.dropOffCount == data[i - 1].count - data[i].count
            && item.dropOffACV == data[i - 1].acv - data[i].acv
            && item.conversionRate == Round1(data[i].diffRate * 100.0)
            && item.dropOffPercentage == Round1(100.0 - data[i].diffRate * 100.0)
            && item.totalConversionRate == Round1(data[i].count as real / data[0].count as real * 100.0)
            && item.totalConversionACV == Round1(data[i].acv / data[0].acv * 100.0)
  {
  }

  /** The two rounded columns of a later stage add up to 100, except when
      1000 * diffRate ends in exactly .5: then both round up and they add up
      to 100.1. */
  lemma ConversionPlusDropOff(data: seq<StageRecord>, formatCurrency: real -> string, i: nat)
    requires 0 < i < |data| && NonZeroBase(data)
    requires 0.0 <= data[i].diffRate <= 1.0
    ensures var item := Items(data, formatCurrency)[i];
            item.conversionRate + item.dropOffPercentage
              == if IsHalfTie(data[i].diffRate * 100.0) then 100.1 else 100.0
  {
    ComplementRounding(data[i].diffRate * 100.0);
  }

  /** A stage with conversion rate 12.25% (diffRate 0.1225) shows 12.3% and
      a drop-off of 87.8%, 100.1% together. */
  lemma ConversionPlusDropOffTie(formatCurrency: real -> string)
    ensures var data := [StageRecord("Suspect", 1000, 1000.0, 0.0, 0.0),
                         StageRecord("Qualify", 122, 500.0, 0.1225, 0.5)];
            var item := Items(data, formatCurrency)[1];
            item.conversionRate == 12.3 && item.dropOffPercentage == 87.8
            && item.conversionRate + item.dropOffPercentage == 100.1
  {
    assert 0.1225 * 100.0 == 12.25;
    ComplementTieExample();
  }

  function SumDropOffCount(items: seq<FunnelItem>): int
  {
    if |items| == 0 then 0 else SumDropOffCount(items[..|items| - 1]) + items[|items| - 1].dropOffCount
  }

  function SumDropOffACV(items: seq<FunnelItem>): real
  {
    if |items| == 0 then 0.0 else SumDropOffACV(items[..|items| - 1]) + items[|items| - 1].dropOffACV
  }

  lemma {:induction false} DropOffPrefix(data: seq<StageRecord>, formatCurrency: real -> string, k: nat)
    requires 0 < k <= |data| && NonZeroBase(data)
    ensures SumDropOffCount(Items(data, formatCurrency)[..k]) == data[0].count - data[k - 1].count
    ensures SumDropOffACV(Items(data, formatCurrency)[..k]) == data[0].acv - data[k - 1].acv
  {
    var items := Items(data, formatCurrency);
    if k > 1 {
      DropOffPrefix(data, formatCurrency, k - 1);
      assert items[..k][..k - 1] == items[..k - 1];
    }
  }

  /** The drop-offs telescope: over the whole funnel they add up to the
      first stage's count (ACV) minus the last stage's. */
  lemma DropOffTelescopes(data: seq<StageRecord>, formatCurrency: real -> string)
    requires |data| > 0 && NonZeroBase(data)
    ensures SumDropOffCount(Items(data, formatCurrency)) == data[0].count - data[|data| - 1].count
    ensures SumDropOffACV(Items(data, formatCurrency)) == data[0].acv - data[|data| - 1].acv
  {
    DropOffPrefix(data, formatCurrency, |data|);
    assert Items(data, formatCurrency)[..|data|] == Items(data, formatCurrency);
  }

  /** The summary reads the first and last stages; with a single stage both
      of its rates are 100. */
  lemma SummaryFigures(data: seq<StageRecord>, formatCurrency: real -> string)
    requires |data| > 0 && NonZeroBase(data)
    ensures var s := Analyze(data, formatCurrency).data.summary;
            && s.totalLeads == data[0].count
            && s.totalACV == formatCurrency(data[0].acv)
            && s.conversionRate == Round1(data[|data| - 1].count as real / data[0].count as real * 100.0)
            && s.winRate == Round1(data[|data| - 1].acv / data[0].acv * 100.0)
            && (|data| == 1 ==> s.conversionRate == 100.0 && s.winRate == 100.0)
  {
    if |data| == 1 {
      assert (data[0].count as real / data[0].count as real) * 100.0 == 100.0;
      assert (data[0].acv / data[0].acv) * 100.0 == 100.0;
      Round1OfTenths(100.0);
    }
  }

  /** The three-stage example: Suspect 1000 / $500,000, Qualify 400 /
      $300,000 (diffRate 0.4) and Won 50 / $100,000 (diffRate 0.125), in
      the order the sort leaves them (StageOrder.SortExample). */
  function ExampleStages(): seq<StageRecord>
  {
    [StageRecord("Suspect", 1000, 500000.0, 0.0, 0.0),
     StageRecord("Qualify", 400, 300000.0, 0.4, 0.6),
     StageRecord("Won", 50, 100000.0, 0.125, 0.333)]
  }

  lemma ExampleSuspect(formatCurrency: real -> string)
    ensures var item := Items(ExampleStages(), formatCurrency)[0];
            item.totalConversionACV == 100.0 && item.conversionRate == 0.0
  {
    FirstStage(ExampleStages(), formatCurrency);
    Round1OfTenths(0.0);
  }

  lemma ExampleQualify(formatCurrency: real -> string)
    ensures var item := Items(ExampleStages(), formatCurrency)[1];
            && item.totalConversionACV == 60.0 && item.conversionRate == 40.0
            && item.dropOffPercentage == 60.0 && item.dropOffCount == 600
  {
    var data := ExampleStages();
    LaterStage(data, formatCurrency, 1);
    assert data[1].acv / data[0].acv * 100.0 == 60.0;
    assert data[1].diffRate * 100.0 == 40.0;
    Round1OfTenths(60.0);
    Round1OfTenths(40.0);
  }

  lemma ExampleWon(formatCurrency: real -> string)
    ensures var item := Items(ExampleStages(), formatCurrency)[2];
            && item.totalConversionACV == 20.0 && item.conversionRate == 12.5
            && item.dropOffPercentage == 87.5 && item.dropOffCount == 350
  {
    var data := ExampleStages();
    LaterStage(data, formatCurrency, 2);
    assert data[2].acv / data[0].acv * 100.0 == 20.0;
    assert data[2].diffRate * 100.0 == 12.5;
    Round1OfTenths(20.0);
    Round1OfTenths(12.5);
    Round1OfTenths(87.5);
  }

  lemma ExampleSummary(formatCurrency: real -> string)
    ensures var summary := Summarize(ExampleStages(), formatCurrency);
            summary.totalLeads == 1000 && summary.conversionRate == 5.0 && summary.winRate == 20.0
  {
    var data := ExampleStages();
    assert data[2].count as real / data[0].count as real * 100.0 == 5.0;
    assert data[2].acv / data[0].acv * 100.0 == 20.0;
    Round1OfTenths(5.0);
    Round1OfTenths(20.0);
  }

  /** The worked example: Suspect carries the full ACV share and
      conversion 0, Qualify 60% of the ACV with 40% conversion and 600
      lost leads, Won 20% with 12.5% conversion and 350 lost; overall 5%
      of the leads and 20% of the ACV are won. */
  lemma WorkedExample(formatCurrency: real -> string)
    ensures Analyze(ExampleStages(), formatCurrency).Ok?
    ensures |Analyze(ExampleStages(), formatCurrency).data.funnelData| == 3
    ensures var items := Analyze(ExampleStages(), formatCurrency).data.funnelData;
            items[0].totalConversionACV == 100.0 && items[0].conversionRate == 0.0
    ensures var items := Analyze(ExampleStages(), formatCurrency).data.funnelData;
            && items[1].totalConversionACV == 60.0 && items[1].conversionRate == 40.0
            && items[1].dropOffPercentage == 60.0 && items[1].dropOffCount == 600
    ensures var items := Analyze(ExampleStages(), formatCurrency).data.funnelData;
            && items[2].totalConversionACV == 20.0 && items[2].conversionRate == 12.5
            && items[2].dropOffPercentage == 87.5 && items[2].dropOffCount == 350
    ensures var summary := Analyze(ExampleStages(), formatCurrency).data.summary;
            summary.totalLeads == 1000 && summary.conversionRate == 5.0 && summary.winRate == 20.0
  {
    var data := ExampleStages();
    assert Analyze(data, formatCurrency) == Ok(FunnelData(Items(data, formatCurrency), Summarize(data, formatCurrency)));
    ExampleSuspect(formatCurrency);
    ExampleQualify(formatCurrency);
    ExampleWon(formatCurrency);
    ExampleSummary(formatCurrency);
  }
}
