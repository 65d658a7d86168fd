/**
 * The worked examples of lib/taxes/taxes-rules-fr.test.ts. Their sales carry
 * no French fraction, so they take the default of 1 that the enrichment
 * gives a sale without one (EnrichFr.NoFractionsDefaultToOne).
 */
module FrFixtures {
  import opened Wrappers
  import opened FormatNumber
  import opened EtradeTypes
  import opened EtradeFilters
  import opened TaxableEventFr
  import opened FrTaxReturn
  import opened TaxesRulesFr
  import opened FrRulesProperties
  import EnrichFr

  /** 2022-03-03 and 2022-03-09 as days since 1970-01-01. */
  const March3: int := 19054
  const March9: int := 19060

  /** The same DDOG sale as restricted stock acquired at no cost. */
  function DdogRsu(proceeds: real, dateSold: int, rateSold: real): EventWithRates
  {
    EventWithRates(
      GainAndLossEvent(RS, "DDOG", 10.0, March3, March3, dateSold, proceeds, 80.0, 0.0, 0.0, Fr),
      1.12, rateSold, 100.0, EnrichFr.DefaultFractionFrIncome, None)
  }

  /** A DDOG stock-option sale of 10 shares bought at 20$, the opening price 100$. */
  function DdogSo(proceeds: real, dateSold: int, rateSold: real): EventWithRates
  {
    EventWithRates(
      GainAndLossEvent(SO, "DDOG", 10.0, March3, March3, dateSold, proceeds, 80.0, 20.0, 0.0, Fr),
      1.12, rateSold, 100.0, EnrichFr.DefaultFractionFrIncome, None)
  }

  lemma Pow6()
    ensures Pow10(6) == 1000000.0
  {
  }

  /** Flooring to 6 digits, for a value whose millionths lie between micros and micros + 1. */
  lemma Floor6Is(v: real, micros: int)
    requires micros as real <= v * 1000000.0 < micros as real + 1.0
    ensures Floor6(v) == micros as real / 1000000.0
  {
    Pow6();
    assert (v * 1000000.0).Floor == micros;
  }

  /** The euro figures of the sale at 110$ on 2022-03-09. */
  lemma GainsExampleFigures()
    ensures Floor6(110.0 / 1.13) == 97.345132
    ensures Floor6(100.0 / 1.12) == 89.285714
    ensures Floor6(20.0 / 1.12) == 17.857142
  {
    Floor6Is(110.0 / 1.13, 97345132);
    Floor6Is(100.0 / 1.12, 89285714);
    Floor6Is(20.0 / 1.12, 17857142);
  }

  /** Pow10(0) and Pow10(2). */
  lemma SmallPowers()
    ensures Pow10(0) == 1.0 && Pow10(2) == 100.0
  {
  }

  /** The roundings on the page of the sale at 110$. */
  lemma GainsExampleRoundings()
    ensures Floor6(97.345132) == 97.345132
    ensures WholeShares(10.0) == 10.0
    ensures Cents(89.285714) == 89.29
  {
    Pow6();
    SmallPowers();
    assert (97.345132 * 1000000.0).Floor == 97345132;
    assert (10.0 * 1.0).Floor == 10;
    assert (-(89.285714 * 100.0)).Floor == -8929;
  }

  /** The whole-euro totals on the page of the sale at 110$. */
  lemma GainsExampleTotals()
    ensures WholeEuros(97.345132, 10.0) == 973.0
    ensures WholeEuros(89.29, 10.0) == 893.0
  {
    SmallPowers();
    assert (97.345132 * 10.0 * 1.0 + 0.5).Floor == 973;
    assert (89.29 * 10.0 * 1.0 + 0.5).Floor == 893;
  }

  /** The page of the sale at 110$: 514 = 97.345132, 516 = 973, 520 = 89.29, 521 = 893, 524 = 80. */
  lemma GainsExamplePage(t: TaxableEventFr)
    requires t.sell.Some? && t.sell.value.eur == 97.345132 && t.quantity == 10.0
    requires t.acquisition.valueEur == 89.285714 && t.symbol == "DDOG" && t.planType == SO
    ensures var p := PageOf(t);
      && p.designation == "DDOG (Stock Options)"
      && p.cell514 == 97.345132 && p.cell515 == 10.0 && p.cell516 == 973.0 && p.cell518 == 973.0
      && p.cell520 == 89.29 && p.cell521 == 893.0 && p.cell523 == 893.0 && p.cell524 == 80.0
      && p.cell517 == 0.0 && p.cell522 == 0.0 && p.cell526 == 0.0 && !p.cell525
  {
    GainsExampleRoundings();
    GainsExampleTotals();
    PageFigures(t);
  }

  /** The taxable event of the sale at 110$: valued at the opening price. */
  lemma GainsExampleEvent(e: EventWithRates)
    requires e == DdogSo(110.0, March9, 1.13)
    ensures HasRates(e) && Selects(FrQualifiedSo, e.event)
    ensures var t := TaxableEventOf(FrQualifiedSo, e);
      && t.sell == Some(SellLeg(110.0, 1.13, 97.345132, March9))
      && t.acquisition.valueEur == 89.285714 && t.acquisition.costEur == 17.857142
      && t.acquisition.description == OpeningOnExercise
      && t.capitalGain.total == 80.59418
      && t.acquisitionGain.total == 714.28572
  {
    assert IsFrQualifiedSo(e.event);
    GainsExampleFigures();
    assert !IsSellToCover(e) && !IsSellAtLoss(e);
    var c := Choice(FrQualifiedSo, e);
    assert c == AcquisitionChoice(100.0, 1.12, 20.0, OpeningOnExercise);
    TaxableEventFigures(e, c);
  }

  /** A rule given one sale it accepts works on that sale's taxable event alone. */
  lemma SingleSale(rule: Rule, e: EventWithRates)
    requires HasRates(e) && Selects(rule, e.event)
    ensures RuleEvents(rule, [e]) == [TaxableEventOf(rule, e)]
    ensures SumAcquisitionGains(RuleEvents(rule, [e])) == TaxableEventOf(rule, e).acquisitionGain.total
  {
    var t := TaxableEventOf(rule, e);
    assert [e][..0] == [];
    assert Select(rule, [e]) == Select(rule, []) + [e];
    assert TaxableEventsFor(rule, [e]) == TaxableEventsFor(rule, []) + [t];
    assert [t][..0] == [];
  }

  /** A declared sale alone gets one page, whose 524 is all the builder adds to 3VG. */
  lemma SinglePage(t: TaxableEventFr)
    requires Declared(t)
    ensures NewPages([t]) == [PageOf(t)]
    ensures Sum524([PageOf(t)]) == PageOf(t).cell524
  {
    assert [t][..0] == [];
    assert [PageOf(t)][..0] == [];
  }

  /** Flooring to 6 digits keeps a value that already has at most 6 decimals. */
  lemma Floor6Keeps(v: real, micros: int)
    requires v * 1000000.0 == micros as real
    ensures Floor6(v) == v
  {
    Pow6();
    assert (v * 1000000.0).Floor == micros;
  }

  /**
   * getFrTaxesForFrQualifiedSo on the sale at 110$: 1TT = 714.28572 and a
   * single page, that of the sale (its cells are GainsExamplePage), whose
   * 524 of 80 is all of 3VG.
   */
  lemma QualifiedSoGainsExample(e: EventWithRates)
    requires e == DdogSo(110.0, March9, 1.13)
    ensures var r := RuleTaxes(FrQualifiedSo, [e], GetEmptyTaxes());
      && r.box1TT == 714.28572 && r.box3VG == 80.0
      && r.page510 == [PageOf(TaxableEventOf(FrQualifiedSo, e))]
  {
    var t := TaxableEventOf(FrQualifiedSo, e);
    GainsExampleEvent(e);
    Floor6Keeps(t.acquisitionGain.total, 714285720);
    GainsExamplePage(t);
    SingleSoSaleWithCapitalGain(e, 714.28572);
  }

  /** The SO rule on one declared sale: 1TT gets its acquisition gain, and its page is the only one and all of 3VG. */
  lemma SingleSoSaleWithCapitalGain(e: EventWithRates, gain: real)
    requires HasRates(e) && Selects(FrQualifiedSo, e.event)
    requires Declared(TaxableEventOf(FrQualifiedSo, e))
    requires TaxableEventOf(FrQualifiedSo, e).acquisitionGain.total == gain && Floor6(gain) == gain
    ensures var p := PageOf(TaxableEventOf(FrQualifiedSo, e));
      var r := RuleTaxes(FrQualifiedSo, [e], GetEmptyTaxes());
      r.box1TT == gain && r.box3VG == p.cell524 && r.page510 == [p]
  {
    var t := TaxableEventOf(FrQualifiedSo, e);
    SingleSale(FrQualifiedSo, e);
    SinglePage(t);
    QualifiedSoBoxes([e], GetEmptyTaxes());
    RuleAddsItsPages(FrQualifiedSo, [e], GetEmptyTaxes());
  }

  /** A one-sale rule whose sale has no capital gain adds no page and leaves 3VG alone. */
  lemma SingleSaleWithoutCapitalGain(rule: Rule, e: EventWithRates)
    requires HasRates(e) && Selects(rule, e.event)
    requires TaxableEventOf(rule, e).capitalGain.total == 0.0
    ensures RuleEvents(rule, [e]) == [TaxableEventOf(rule, e)]
    ensures var r := RuleTaxes(rule, [e], GetEmptyTaxes());
      r.box3VG == 0.0 && |r.page510| == 0
  {
    var t := TaxableEventOf(rule, e);
    SingleSale(rule, e);
    assert [t][..0] == [];
    assert NewPages([t]) == [];
    RuleAddsItsPages(rule, [e], GetEmptyTaxes());
  }

  /** The SO rule on one sale without capital gain: 1TT gets its acquisition gain, nothing else changes. */
  lemma SingleSoSaleWithoutCapitalGain(e: EventWithRates, gain: real)
    requires HasRates(e) && Selects(FrQualifiedSo, e.event)
    requires TaxableEventOf(FrQualifiedSo, e).capitalGain.total == 0.0
    requires TaxableEventOf(FrQualifiedSo, e).acquisitionGain.total == gain && Floor6(gain) == gain
    ensures var r := RuleTaxes(FrQualifiedSo, [e], GetEmptyTaxes());
      r.box1TT == gain && r.box3VG == 0.0 && |r.page510| == 0
  {
    SingleSaleWithoutCapitalGain(FrQualifiedSo, e);
    QualifiedSoBoxes([e], GetEmptyTaxes());
  }

  /** The RSU rule on one sale without capital gain: 1TZ and 1WZ get half its acquisition gain up to the threshold. */
  lemma SingleRsuSaleWithoutCapitalGain(e: EventWithRates, gain: real)
    requires HasRates(e) && Selects(FrQualifiedRsu, e.event)
    requires TaxableEventOf(FrQualifiedRsu, e).capitalGain.total == 0.0
    requires TaxableEventOf(FrQualifiedRsu, e).acquisitionGain.total == gain
    ensures var r := RuleTaxes(FrQualifiedRsu, [e], GetEmptyTaxes());
      && r.box1TZ == RsuDiscountOf(gain) && r.box1WZ == RsuDiscountOf(gain) && r.box1TT == RsuAboveThresholdOf(gain)
      && r.box3VG == 0.0 && |r.page510| == 0
  {
    SingleSaleWithoutCapitalGain(FrQualifiedRsu, e);
    QualifiedRsuBoxes([e], GetEmptyTaxes());
  }

  /** The same-day stock-option sale is a sale to cover, valued at its sale price. */
  lemma SameDaySoEvent(e: EventWithRates)
    requires e == DdogSo(110.0, March3, 1.12)
    ensures HasRates(e) && Selects(FrQualifiedSo, e.event)
    ensures var t := TaxableEventOf(FrQualifiedSo, e);
      t.acquisitionGain.total == 803.57143 && Floor6(t.acquisitionGain.total) == 803.57143
      && t.capitalGain.total == 0.0
  {
    assert IsFrQualifiedSo(e.event);
    assert IsSellToCover(e);
    var c := Choice(FrQualifiedSo, e);
    assert c == AcquisitionChoice(110.0, 1.12, 20.0, SellToCover);
    TaxableEventFigures(e, c);
    Floor6Is(110.0 / 1.12, 98214285);
    Floor6Is(20.0 / 1.12, 17857142);
    Floor6Keeps(803.57143, 803571430);
  }

  /** The same-day sale at 110$ is valued at its sale price: 1TT = 803.57143 and no page. */
  lemma QualifiedSoSameDayExample(e: EventWithRates)
    requires e == DdogSo(110.0, March3, 1.12)
    ensures var r := RuleTaxes(FrQualifiedSo, [e], GetEmptyTaxes());
      r.box1TT == 803.57143 && r.box3VG == 0.0 && |r.page510| == 0
  {
    var gain := TaxableEventOf(FrQualifiedSo, e).acquisitionGain.total;
    SameDaySoEvent(e);
    SingleSoSaleWithoutCapitalGain(e, gain);
  }

  /** The sale at 90$, below the opening price, is a sale at a loss, valued at its sale price. */
  lemma LossSoEvent(e: EventWithRates)
    requires e == DdogSo(90.0, March9, 1.13)
    ensures HasRates(e) && Selects(FrQualifiedSo, e.event)
    ensures var t := TaxableEventOf(FrQualifiedSo, e);
      && t.acquisition.description == SaleAtLoss
      && t.acquisitionGain.total == 617.88875 && Floor6(t.acquisitionGain.total) == 617.88875
      && t.capitalGain.total == 0.0
  {
    assert IsFrQualifiedSo(e.event);
    Floor6Is(90.0 / 1.13, 79646017);
    GainsExampleFigures();
    assert !IsSellToCover(e) && IsSellAtLoss(e);
    var c := Choice(FrQualifiedSo, e);
    assert c == AcquisitionChoice(90.0, 1.13, 20.0, SaleAtLoss);
    TaxableEventFigures(e, c);
    Floor6Keeps(617.88875, 617888750);
  }

  /** The sale at 90$, below the opening price, is valued at its sale price: 1TT = 617.88875. */
  lemma QualifiedSoLossExample(e: EventWithRates)
    requires e == DdogSo(90.0, March9, 1.13)
    ensures var r := RuleTaxes(FrQualifiedSo, [e], GetEmptyTaxes());
      r.box1TT == 617.88875 && r.box3VG == 0.0 && |r.page510| == 0
  {
    var gain := TaxableEventOf(FrQualifiedSo, e).acquisitionGain.total;
    LossSoEvent(e);
    SingleSoSaleWithoutCapitalGain(e, gain);
  }

  /** The same-day restricted-stock sale is a sale to cover with an acquisition gain of 982.14285. */
  lemma SameDayRsuEvent(e: EventWithRates)
    requires e == DdogRsu(110.0, March3, 1.12)
    ensures HasRates(e) && Selects(FrQualifiedRsu, e.event)
    ensures var t := TaxableEventOf(FrQualifiedRsu, e);
      t.acquisitionGain.total == 982.14285 && t.capitalGain.total == 0.0
  {
    assert IsFrQualifiedRsu(e.event);
    assert IsSellToCover(e);
    var c := Choice(FrQualifiedRsu, e);
    assert c == AcquisitionChoice(110.0, 1.12, 0.0, SellToCoverUncertain);
    TaxableEventFigures(e, c);
    Floor6Is(110.0 / 1.12, 98214285);
    Floor6Is(0.0 / 1.12, 0);
  }

  /** Half of 982.14285 for 1TZ and 1WZ, nothing above the threshold for 1TT. */
  lemma RsuSameDayFigures(gain: real)
    requires gain == 982.14285
    ensures RsuDiscountOf(gain) == 491.071425 && RsuAboveThresholdOf(gain) == 0.0
  {
    Floor6Keeps(982.14285, 982142850);
    Floor6Keeps(982.14285 / 2.0, 491071425);
  }

  /** The same-day restricted-stock sale: half of 982.14285 goes to both 1TZ and 1WZ, 1TT stays 0. */
  lemma QualifiedRsuSameDayExample(e: EventWithRates)
    requires e == DdogRsu(110.0, March3, 1.12)
    ensures var r := RuleTaxes(FrQualifiedRsu, [e], GetEmptyTaxes());
      && r.box1TZ == 491.071425 && r.box1WZ == 491.071425 && r.box1TT == 0.0
      && r.box3VG == 0.0 && |r.page510| == 0
  {
    var gain := TaxableEventOf(FrQualifiedRsu, e).acquisitionGain.total;
    SameDayRsuEvent(e);
    RsuSameDayFigures(gain);
    SingleRsuSaleWithoutCapitalGain(e, gain);
  }
}
