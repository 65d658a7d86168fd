/** The broker records the tax engine consumes (lib/etrade/etrade.types.ts). */
module EtradeTypes {
  import opened Dates

  /** "ESPP", "RS" or "SO"; any other text in the Plan Type column is kept as is. */
  datatype PlanType = ESPP | RS | SO | OtherPlan(name: string)

  /** Which tax system the plan is qualified in: "fr" or "us". */
  datatype Qualification = Fr | Us

  /** One sale from the E*Trade Gain & Loss report, dates as UTC days. */
  datatype GainAndLossEvent = GainAndLossEvent(
    planType: PlanType,
    symbol: string,
    quantity: real,
    dateGranted: Day,
    dateAcquired: Day,
    dateSold: Day,
    proceeds: real,
    adjustedCost: real,
    acquisitionCost: real,
    purchaseDateFairMktValue: real,
    qualifiedIn: Qualification)
}
