/** The per-sale record the French rules produce (lib/taxes/taxable-event-fr.ts). */
module TaxableEventFr {
  import opened Wrappers
  import opened Dates
  import opened EtradeTypes

  /** The taxable event type; E*Trade Gain & Loss rows are all sales. */
  datatype EventType = Vesting | Sell | Exercise

  /**
   * How the acquisition value was chosen, standing for the rule's one-line
   * description of it.
   */
  datatype Valuation =
    | SellToCover             // sale price, the sale is on the acquisition day
    | SellToCoverUncertain    // the same for RSUs, with the warning the rules attach
    | SaleAtLoss              // sale price, the qualified plan sold at a loss
    | OpeningOnExercise       // opening price on the day of exercise
    | OpeningOnVesting        // opening price on the vesting day
    | EsppAdjustedCost        // ESPP value as reported by the broker
    | EsppFairMarketValue     // ESPP fair market value, the broker did not collect taxes

  /** Sale information per share. */
  datatype SellLeg = SellLeg(usd: real, rate: real, eur: real, date: Day)

  /** Acquisition information per share. */
  datatype Acquisition = Acquisition(
    valueUsd: real,
    valueEur: real,
    costUsd: real,
    costEur: real,
    symbolPrice: real,
    symbolPriceEur: real,
    dateSymbolPriceAcquired: Option<Day>,
    rate: real,
    date: Day,
    description: Valuation)

  datatype CapitalGain = CapitalGain(perShare: real, total: real)

  datatype AcquisitionGain = AcquisitionGain(perShare: real, total: real, fractionFr: real)

  datatype TaxableEventFr = TaxableEventFr(
    symbol: string,
    planType: PlanType,
    qualifiedIn: Qualification,
    eventType: EventType,
    date: Day,
    quantity: real,
    sell: Option<SellLeg>,
    acquisition: Acquisition,
    capitalGain: CapitalGain,
    acquisitionGain: AcquisitionGain)
}
