/** The record shapes of the dashboard: one metric record per entity, and the
    three-tier Manager -> Team Lead (TL) -> Line Contributor (LC) tree. */
module Types {

  /** A value that may be absent (JavaScript's `null`). */
  datatype Option<T> = None | Some(value: T)

  /** The three status bands, in increasing order of performance. */
  datatype PerformanceStatus = Poor | Acceptable | Good

  /** Performance figures of one entity at any tier. Every JavaScript number
      is a `real` here. `attendance` is "Present"/"Absent" for an LC and a
      count written as a string for a TL or Manager. */
  datatype MetricData = MetricData(
    attendance: string,
    counselled: real,
    uniqueDials: real,
    talktime: real,
    udPlusTt: real,
    productivity: real,
    admission: real,
    screening: real,
    offer: real,
    overall: real)

  /** A line contributor. `tlName` and `managerName` are copies of the
      owning TL's and Manager's names, not links to them. */
  datatype LC = LC(
    id: string,
    name: string,
    email: string,
    tlName: string,
    managerName: string,
    metrics: MetricData)

  /** A team lead, owning its LCs in display order. */
  datatype TL = TL(name: string, managerName: string, metrics: MetricData, lcs: seq<LC>)

  /** A manager, owning its TLs in display order. */
  datatype Manager = Manager(name: string, metrics: MetricData, tls: seq<TL>)
}
