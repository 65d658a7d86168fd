/** What each French rule does to the return, and to the sales it values. */
module FrRulesProperties {
  import opened Wrappers
  import opened EtradeTypes
  import opened FormatNumber
  import opened TaxableEventFr
  import opened FrTaxReturn
  import opened TaxesRulesFr

  /**
   * Every rule appends exactly the pages of its own declared sales after the
   * existing ones and adds exactly their 524 to 3VG; 3VH and the two summary
   * pages never change.
   */
  lemma RuleAddsItsPages(rule: Rule, gainsAndLosses: seq<EventWithRates>, taxes: FrTaxes)
    requires AllHaveRates(gainsAndLosses)
    ensures var r := RuleTaxes(rule, gainsAndLosses, taxes);
      var pages := NewPages(RuleEvents(rule, gainsAndLosses));
      && r.page510 == taxes.page510 + pages
      && r.box3VG == taxes.box3VG + Sum524(pages)
      && r.box3VH == taxes.box3VH && r.page900 == taxes.page900 && r.page11 == taxes.page11
      && taxes.explanations <= r.explanations
  {
    match rule
    case FrQualifiedSo => QualifiedSoAddsPages(gainsAndLosses, taxes);
    case FrQualifiedRsu => QualifiedRsuAddsPages(gainsAndLosses, taxes);
    case Espp => EsppAddsPages(gainsAndLosses, taxes);
    case _ => NonFrQualifiedAddsPages(rule, gainsAndLosses, taxes);
  }

  lemma QualifiedSoAddsPages(gainsAndLosses: seq<EventWithRates>, taxes: FrTaxes)
    requires AllHaveRates(gainsAndLosses)
    ensures var r := RuleTaxes(FrQualifiedSo, gainsAndLosses, taxes);
      var pages := NewPages(RuleEvents(FrQualifiedSo, gainsAndLosses));
      && r.page510 == taxes.page510 + pages
      && r.box3VG == taxes.box3VG + Sum524(pages)
      && r.box3VH == taxes.box3VH && r.page900 == taxes.page900 && r.page11 == taxes.page11
      && taxes.explanations <= r.explanations
  {
    var events := RuleEvents(FrQualifiedSo, gainsAndLosses);
    var t0 := taxes.(box1TT := taxes.box1TT + Floor6(SumAcquisitionGains(events)));
    var t1 := t0.(explanations := t0.explanations + [Explanation(Box1TT, QualifiedSoAcquisitionGains, events)]);
    CapitalGainAddsPages(FrQualifiedSo, events, t1);
  }

  lemma QualifiedRsuAddsPages(gainsAndLosses: seq<EventWithRates>, taxes: FrTaxes)
    requires AllHaveRates(gainsAndLosses)
    ensures var r := RuleTaxes(FrQualifiedRsu, gainsAndLosses, taxes);
      var pages := NewPages(RuleEvents(FrQualifiedRsu, gainsAndLosses));
      && r.page510 == taxes.page510 + pages
      && r.box3VG == taxes.box3VG + Sum524(pages)
      && r.box3VH == taxes.box3VH && r.page900 == taxes.page900 && r.page11 == taxes.page11
      && taxes.explanations <= r.explanations
  {
    var events := RuleEvents(FrQualifiedRsu, gainsAndLosses);
    var gain := SumAcquisitionGains(events);
    var boxes := RsuBoxes(taxes, gain);
    var t1 := boxes.(explanations := boxes.explanations + RsuExplanations(events, gain));
    CapitalGainAddsPages(FrQualifiedRsu, events, t1);
  }

  lemma EsppAddsPages(gainsAndLosses: seq<EventWithRates>, taxes: FrTaxes)
    requires AllHaveRates(gainsAndLosses)
    ensures var r := RuleTaxes(Espp, gainsAndLosses, taxes);
      var pages := NewPages(RuleEvents(Espp, gainsAndLosses));
      && r.page510 == taxes.page510 + pages
      && r.box3VG == taxes.box3VG + Sum524(pages)
      && r.box3VH == taxes.box3VH && r.page900 == taxes.page900 && r.page11 == taxes.page11
      && taxes.explanations <= r.explanations
  {
    var events := RuleEvents(Espp, gainsAndLosses);
    var t1 := taxes.(explanations := taxes.explanations + [Explanation(Box1AJ, EsppAcquisitionGainsElsewhere, [])]);
    CapitalGainAddsPages(Espp, events, t1);
  }

  lemma NonFrQualifiedAddsPages(rule: Rule, gainsAndLosses: seq<EventWithRates>, taxes: FrTaxes)
    requires rule == NonFrQualifiedSo || rule == NonFrQualifiedRsu
    requires AllHaveRates(gainsAndLosses)
    ensures var r := RuleTaxes(rule, gainsAndLosses, taxes);
      var pages := NewPages(RuleEvents(rule, gainsAndLosses));
      && r.page510 == taxes.page510 + pages
      && r.box3VG == taxes.box3VG + Sum524(pages)
      && r.box3VH == taxes.box3VH && r.page900 == taxes.page900 && r.page11 == taxes.page11
      && taxes.explanations <= r.explanations
  {
    var events := RuleEvents(rule, gainsAndLosses);
    if |events| == 0 {
      assert taxes.page510 + [] == taxes.page510;
    } else {
      var k := |taxes.explanations|;
      var t1 := taxes.(explanations := taxes.explanations + [Explanation(Box1AJ, NonFrReason(rule), events)]);
      CapitalGainAddsPages(rule, events, t1);
      var (t2, relinked) := CapitalGainTaxes(rule, events, t1);
      var r := Relink(t2, k, relinked);
      assert r == RuleTaxes(rule, gainsAndLosses, taxes);
      forall j | 0 <= j < k ensures r.explanations[j] == taxes.explanations[j] {
        assert t1.explanations[j] == taxes.explanations[j];
      }
    }
  }

  /**
   * The SO rule adds floor6 of its acquisition gains to 1TT, whatever their
   * sign, and records a 1TT explanation; the other income boxes stay.
   */
  lemma QualifiedSoBoxes(gainsAndLosses: seq<EventWithRates>, taxes: FrTaxes)
    requires AllHaveRates(gainsAndLosses)
    ensures var r := RuleTaxes(FrQualifiedSo, gainsAndLosses, taxes);
      && r.box1TT == taxes.box1TT + Floor6(SumAcquisitionGains(RuleEvents(FrQualifiedSo, gainsAndLosses)))
      && r.box1TZ == taxes.box1TZ && r.box1WZ == taxes.box1WZ && r.box1AJ == taxes.box1AJ
      && |r.explanations| > |taxes.explanations|
      && r.explanations[|taxes.explanations|].box == Box1TT
  {
    var events := RuleEvents(FrQualifiedSo, gainsAndLosses);
    var t0 := taxes.(box1TT := taxes.box1TT + Floor6(SumAcquisitionGains(events)));
    var t1 := t0.(explanations := t0.explanations + [Explanation(Box1TT, QualifiedSoAcquisitionGains, events)]);
    CapitalGainAddsPages(FrQualifiedSo, events, t1);
    assert t1.explanations[|taxes.explanations|].box == Box1TT;
  }

  /** The amount the RSU rule adds to 1TZ and to 1WZ. */
  function RsuDiscountOf(acquisitionGainEur: real): real
  {
    if acquisitionGainEur > 0.0 then Floor6(Min(Floor6(acquisitionGainEur), RsuThreshold) / 2.0) else 0.0
  }

  /** The amount the RSU rule adds to 1TT. */
  function RsuAboveThresholdOf(acquisitionGainEur: real): real
  {
    var g := Floor6(acquisitionGainEur);
    if g > RsuThreshold then g - RsuThreshold else 0.0
  }

  /**
   * The RSU rule adds the same discount to 1TZ and 1WZ and the part of
   * G = floor6(gains) above 300 000 to 1TT, leaving 1AJ alone.
   */
  lemma QualifiedRsuBoxes(gainsAndLosses: seq<EventWithRates>, taxes: FrTaxes)
    requires AllHaveRates(gainsAndLosses)
    ensures var gain := SumAcquisitionGains(RuleEvents(FrQualifiedRsu, gainsAndLosses));
      var r := RuleTaxes(FrQualifiedRsu, gainsAndLosses, taxes);
      && r.box1TZ == taxes.box1TZ + RsuDiscountOf(gain)
      && r.box1WZ == taxes.box1WZ + RsuDiscountOf(gain)
      && r.box1TT == taxes.box1TT + RsuAboveThresholdOf(gain)
      && r.box1AJ == taxes.box1AJ
  {
    var events := RuleEvents(FrQualifiedRsu, gainsAndLosses);
    var gain := SumAcquisitionGains(events);
    var boxes := RsuBoxes(taxes, gain);
    RsuBoxesFigures(taxes, gain);
    var t1 := boxes.(explanations := boxes.explanations + RsuExplanations(events, gain));
    CapitalGainAddsPages(FrQualifiedRsu, events, t1);
  }

  lemma RsuBoxesFigures(taxes: FrTaxes, gain: real)
    ensures var r := RsuBoxes(taxes, gain);
      && r.box1TZ == taxes.box1TZ + RsuDiscountOf(gain)
      && r.box1WZ == taxes.box1WZ + RsuDiscountOf(gain)
      && r.box1TT == taxes.box1TT + RsuAboveThresholdOf(gain)
      && r.box1AJ == taxes.box1AJ
  {
    var g := Floor6(gain);
    if g > RsuThreshold {
      assert Max(g - RsuThreshold, 0.0) == g - RsuThreshold;
    }
  }

  /**
   * Each RSU call adds between 0 and 150 000 to 1TZ (and 1WZ), and the two
   * halves plus the part above the threshold give back G up to the 6-digit
   * flooring of the halves; nothing reaches 1TT unless G exceeds 300 000.
   */
  lemma RsuThresholdSplit(acquisitionGainEur: real)
    ensures 0.0 <= RsuDiscountOf(acquisitionGainEur) <= RsuThreshold / 2.0
    ensures RsuAboveThresholdOf(acquisitionGainEur) >= 0.0
    ensures Floor6(acquisitionGainEur) <= RsuThreshold ==> RsuAboveThresholdOf(acquisitionGainEur) == 0.0
    ensures acquisitionGainEur > 0.0 ==>
      var g := Floor6(acquisitionGainEur);
      var split := 2.0 * RsuDiscountOf(acquisitionGainEur) + RsuAboveThresholdOf(acquisitionGainEur);
      g - 2.0 * Step(6) < split <= g
  {
    if acquisitionGainEur > 0.0 {
      var g := Floor6(acquisitionGainEur);
      FloorNonNegative(acquisitionGainEur, 6);
      var half := Min(g, RsuThreshold) / 2.0;
      FloorNonNegative(half, 6);
    }
  }

  /** The ESPP and non-FR-qualified rules never touch the income boxes. */
  lemma OtherRulesKeepIncomeBoxes(rule: Rule, gainsAndLosses: seq<EventWithRates>, taxes: FrTaxes)
    requires rule == Espp || rule == NonFrQualifiedSo || rule == NonFrQualifiedRsu
    requires AllHaveRates(gainsAndLosses)
    ensures var r := RuleTaxes(rule, gainsAndLosses, taxes);
      r.box1TT == taxes.box1TT && r.box1TZ == taxes.box1TZ && r.box1WZ == taxes.box1WZ &&
      r.box1AJ == taxes.box1AJ && r.box3VH == taxes.box3VH
  {
    var events := RuleEvents(rule, gainsAndLosses);
    if rule == Espp {
      var t1 := taxes.(explanations := taxes.explanations + [Explanation(Box1AJ, EsppAcquisitionGainsElsewhere, [])]);
      CapitalGainAddsPages(rule, events, t1);
    } else if |events| > 0 {
      var k := |taxes.explanations|;
      var t1 := taxes.(explanations := taxes.explanations + [Explanation(Box1AJ, NonFrReason(rule), events)]);
      CapitalGainAddsPages(rule, events, t1);
      var (t2, relinked) := CapitalGainTaxes(rule, events, t1);
      var r := Relink(t2, k, relinked);
      assert r == RuleTaxes(rule, gainsAndLosses, taxes);
      forall j | 0 <= j < k ensures r.explanations[j] == taxes.explanations[j] {
        assert t1.explanations[j] == taxes.explanations[j];
      }
    }
  }

  /** A non-FR-qualified rule with no matching sale returns the return untouched. */
  lemma NonFrQualifiedNoMatch(rule: Rule, gainsAndLosses: seq<EventWithRates>, taxes: FrTaxes)
    requires rule == NonFrQualifiedSo || rule == NonFrQualifiedRsu
    requires AllHaveRates(gainsAndLosses)
    requires forall e :: e in gainsAndLosses ==> !Selects(rule, e.event)
    ensures RuleTaxes(rule, gainsAndLosses, taxes) == taxes
  {
    SelectEmpty(rule, gainsAndLosses);
  }

  /** Every rule keeps 3VG equal to the sum of the 524 lines, and 1TZ equal to 1WZ. */
  lemma RuleKeepsBalance(rule: Rule, gainsAndLosses: seq<EventWithRates>, taxes: FrTaxes)
    requires AllHaveRates(gainsAndLosses)
    requires Balanced(taxes)
    ensures Balanced(RuleTaxes(rule, gainsAndLosses, taxes))
  {
    RuleAddsItsPages(rule, gainsAndLosses, taxes);
    Sum524Append(taxes.page510, NewPages(RuleEvents(rule, gainsAndLosses)));
    match rule
    case FrQualifiedSo => QualifiedSoBoxes(gainsAndLosses, taxes);
    case FrQualifiedRsu => QualifiedRsuBoxes(gainsAndLosses, taxes);
    case _ => OtherRulesKeepIncomeBoxes(rule, gainsAndLosses, taxes);
  }

  /**
   * The FR-qualified SO and RSU rules: a same-day sale or a sale at a loss
   * is valued at its sale price, so its capital gain is exactly 0; any other
   * sale is valued at the opening price and its capital gain is not negative.
   */
  lemma QualifiedCapitalGain(rule: Rule, e: EventWithRates)
    requires rule == FrQualifiedSo || rule == FrQualifiedRsu
    requires HasRates(e)
    ensures var t := TaxableEventOf(rule, e);
      && (IsSellToCover(e) || IsSellAtLoss(e) ==> t.capitalGain.perShare == 0.0 && t.capitalGain.total == 0.0)
      && (!IsSellToCover(e) && !IsSellAtLoss(e) ==>
            t.acquisition.valueEur == t.acquisition.symbolPriceEur && t.capitalGain.perShare >= 0.0 &&
            (e.event.quantity >= 0.0 ==> t.capitalGain.total >= 0.0))
      && t.acquisition.costUsd == e.event.acquisitionCost
  {
    var c := Choice(rule, e);
    TaxableEventFigures(e, c);
  }

  /**
   * ESPP: the adjusted cost is the acquisition value exactly when the fair
   * market value is not 0.001 above it, and then there is no acquisition
   * gain; otherwise the fair market value is used.
   */
  lemma EsppValuation(e: EventWithRates)
    requires HasRates(e)
    ensures var t := TaxableEventOf(Espp, e);
      var collected := e.event.purchaseDateFairMktValue - e.event.adjustedCost < 0.001;
      && (t.acquisition.description == EsppAdjustedCost <==> collected)
      && (collected ==> t.acquisition.valueUsd == e.event.adjustedCost && t.acquisitionGain.total == 0.0)
      && (!collected ==> t.acquisition.valueUsd == e.event.purchaseDateFairMktValue)
      && t.acquisition.costUsd == e.event.adjustedCost && t.acquisition.rate == e.rateAcquired
  {
    var c := Choice(Espp, e);
    TaxableEventFigures(e, c);
  }

  /**
   * Non-FR-qualified SO and RSU: a same-day sale is valued at its sale price
   * (no capital gain), any other at the opening price of the acquisition day.
   */
  lemma NonFrQualifiedValuation(rule: Rule, e: EventWithRates)
    requires rule == NonFrQualifiedSo || rule == NonFrQualifiedRsu
    requires HasRates(e)
    ensures var t := TaxableEventOf(rule, e);
      && (IsSellToCover(e) ==> t.capitalGain.total == 0.0)
      && (!IsSellToCover(e) ==> t.acquisition.valueEur == t.acquisition.symbolPriceEur &&
                                t.acquisition.description == OpeningOnExercise)
  {
    var c := Choice(rule, e);
    TaxableEventFigures(e, c);
  }
}
