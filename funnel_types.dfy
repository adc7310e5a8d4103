/** The record shapes shared by the server and the client. */
module FunnelTypes {

  /** One raw stage as read from the data file (`name` is the source's
      `label` field, a reserved word in Dafny): the fields the server
      reads, plus diffacvRate, which it carries through unread. */
  datatype StageRecord = StageRecord(
    name: string,
    count: int,
    acv: real,
    diffRate: real,
    diffacvRate: real)

  /** A stage with its derived metrics (client/types/index.ts FunnelItem). */
  datatype FunnelItem = FunnelItem(
    name: string,
    acv: real,
    count: int,
    diffRate: real,
    diffacvRate: real,
    conversionRate: real,
    totalConversionRate: real,
    totalConversionACV: real,
    dropOffCount: int,
    dropOffACV: real,
    dropOffPercentage: real,
    formattedACV: string)

  datatype FunnelSummary = FunnelSummary(
    totalLeads: int,
    totalACV: string,
    conversionRate: real,
    winRate: real)

  datatype FunnelData = FunnelData(funnelData: seq<FunnelItem>, summary: FunnelSummary)

  /** What processData returns: the data, or the error object. */
  datatype FunnelResult = Ok(data: FunnelData) | Error(error: string)

  datatype Option<T> = None | Some(value: T)
}
