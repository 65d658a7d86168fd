/**
 * The five French rule functions of lib/taxes/taxes-rules-fr.ts: which sales
 * each one takes, how it values their acquisition, which boxes it fills in,
 * and the Form 2074 pages it has the page builder add.
 */
module TaxesRulesFr {
  import opened Wrappers
  import opened EtradeTypes
  import opened EtradeFilters
  import opened FormatNumber
  import opened TaxableEventFr
  import opened FrTaxReturn

  /** Every event has usable rates (a missing or zero rate makes the source compute NaN). */
  predicate AllHaveRates(events: seq<EventWithRates>)
  {
    forall e :: e in events ==> HasRates(e)
  }

  /** The filter each rule applies to the sales. */
  function Selects(rule: Rule, e: GainAndLossEvent): bool
  {
    match rule
    case FrQualifiedSo => IsFrQualifiedSo(e)
    case FrQualifiedRsu => IsFrQualifiedRsu(e)
    case Espp => IsEspp(e)
    case NonFrQualifiedSo => IsUsQualifiedSo(e)
    case NonFrQualifiedRsu => IsUsQualifiedRsu(e)
  }

  /** gainsAndLosses.filter(...) for a rule: the accepted sales, in order. */
  function Select(rule: Rule, events: seq<EventWithRates>): (r: seq<EventWithRates>)
    ensures forall e :: e in r <==> e in events && Selects(rule, e.event)
  {
    if |events| == 0 then []
    else
      var last := events[|events| - 1];
      Select(rule, events[..|events| - 1]) + (if Selects(rule, last.event) then [last] else [])
  }

  /** Filtering keeps the order: the selection of a + b is a's selection followed by b's. */
  lemma {:induction false} SelectAppend(rule: Rule, a: seq<EventWithRates>, b: seq<EventWithRates>)
    ensures Select(rule, a + b) == Select(rule, a) + Select(rule, b)
  {
    if |b| == 0 {
      assert a + b == a;
    } else {
      var init := b[..|b| - 1];
      assert (a + b)[..|a + b| - 1] == a + init;
      assert (a + b)[|a + b| - 1] == b[|b| - 1];
      SelectAppend(rule, a, init);
    }
  }

  lemma {:induction false} SelectEmpty(rule: Rule, events: seq<EventWithRates>)
    requires forall e :: e in events ==> !Selects(rule, e.event)
    ensures Select(rule, events) == []
  {
    if |events| > 0 {
      assert events[|events| - 1] in events;
      SelectEmpty(rule, events[..|events| - 1]);
    }
  }

  /** The acquisition and the sale happen on the same day. */
  predicate IsSellToCover(e: EventWithRates)
  {
    e.event.dateAcquired == e.event.dateSold
  }

  /** The EUR sale price is below the EUR opening price of the acquisition day. */
  predicate IsSellAtLoss(e: EventWithRates)
    requires HasRates(e)
  {
    Floor6(e.event.proceeds / e.rateSold) < Floor6(e.symbolPriceAcquired / e.rateAcquired)
  }

  /** isRoughlyEqual: a one-sided comparison, a - b < epsilon. */
  function IsRoughlyEqual(a: real, b: real, epsilon: real := 0.001): bool
  {
    a - b < epsilon
  }

  /**
   * The test is one-sided: any a at most b passes however far apart; only
   * when it holds both ways are a and b within epsilon of each other.
   */
  lemma IsRoughlyEqualOneSided(a: real, b: real)
    ensures a <= b ==> IsRoughlyEqual(a, b)
    ensures IsRoughlyEqual(a, b) && IsRoughlyEqual(b, a) <==> -0.001 < a - b < 0.001
    ensures IsRoughlyEqual(0.0, 1000.0) && !IsRoughlyEqual(1000.0, 0.0)
  {
  }

  /** The acquisition value, its rate and the cost each rule picks for a sale. */
  function Choice(rule: Rule, e: EventWithRates): (c: AcquisitionChoice)
    requires HasRates(e)
    ensures c.valueRate == e.rateAcquired || c.valueRate == e.rateSold
  {
    var sale := AcquisitionChoice(e.event.proceeds, e.rateSold, e.event.acquisitionCost, SellToCover);
    var opening := AcquisitionChoice(e.symbolPriceAcquired, e.rateAcquired, e.event.acquisitionCost, OpeningOnExercise);
    match rule
    case FrQualifiedSo =>
      if IsSellToCover(e) then sale
      else if IsSellAtLoss(e) then sale.(explain := SaleAtLoss)
      else opening
    case FrQualifiedRsu =>
      if IsSellToCover(e) then sale.(explain := SellToCoverUncertain)
      else if IsSellAtLoss(e) then sale.(explain := SaleAtLoss)
      else opening.(explain := OpeningOnVesting)
    case Espp =>
      var hasTaxesBeenCollected := IsRoughlyEqual(e.event.purchaseDateFairMktValue, e.event.adjustedCost);
      AcquisitionChoice(
        if hasTaxesBeenCollected then e.event.adjustedCost else e.event.purchaseDateFairMktValue,
        e.rateAcquired,
        e.event.adjustedCost,
        if hasTaxesBeenCollected then EsppAdjustedCost else EsppFairMarketValue)
    case NonFrQualifiedSo =>
      if IsSellToCover(e) then sale else opening
    case NonFrQualifiedRsu =>
      if IsSellToCover(e) then sale.(explain := SellToCoverUncertain) else opening
  }

  /** The taxable event a rule makes of a sale. */
  function TaxableEventOf(rule: Rule, e: EventWithRates): TaxableEventFr
    requires HasRates(e)
  {
    GetFrTaxableEventFromGainsAndLossEvent(e, Choice(rule, e))
  }

  /** The taxable events of a rule's sales, one per sale, in order. */
  function TaxableEventsFor(rule: Rule, events: seq<EventWithRates>): (r: seq<TaxableEventFr>)
    requires AllHaveRates(events)
    ensures |r| == |events|
  {
    if |events| == 0 then []
    else
      assert events[|events| - 1] in events;
      TaxableEventsFor(rule, events[..|events| - 1]) + [TaxableEventOf(rule, events[|events| - 1])]
  }

  /** The taxable event at each place is the one the rule makes of the sale at that place. */
  lemma {:induction false} TaxableEventsForIndex(rule: Rule, events: seq<EventWithRates>)
    requires AllHaveRates(events)
    ensures forall i :: 0 <= i < |events| ==> TaxableEventsFor(rule, events)[i] == TaxableEventOf(rule, events[i])
  {
    if |events| > 0 {
      var init := events[..|events| - 1];
      assert forall e :: e in init ==> e in events;
      TaxableEventsForIndex(rule, init);
      assert forall i :: 0 <= i < |init| ==> init[i] == events[i];
    }
  }

  /** Sum of acquisitionGain.total, added up in order. */
  function SumAcquisitionGains(events: seq<TaxableEventFr>): real
  {
    if |events| == 0 then 0.0
    else SumAcquisitionGains(events[..|events| - 1]) + events[|events| - 1].acquisitionGain.total
  }

  /** The taxable events a rule builds from the enriched sales. */
  function RuleEvents(rule: Rule, gainsAndLosses: seq<EventWithRates>): seq<TaxableEventFr>
    requires AllHaveRates(gainsAndLosses)
  {
    TaxableEventsFor(rule, Select(rule, gainsAndLosses))
  }

  /** One more sale adds its taxable event at the end. */
  lemma TaxableEventsStep(rule: Rule, events: seq<EventWithRates>, i: nat)
    requires AllHaveRates(events) && i < |events|
    ensures AllHaveRates(events[..i]) && AllHaveRates(events[..i + 1])
    ensures TaxableEventsFor(rule, events[..i + 1]) == TaxableEventsFor(rule, events[..i]) + [TaxableEventOf(rule, events[i])]
    ensures SumAcquisitionGains(TaxableEventsFor(rule, events[..i + 1]))
         == SumAcquisitionGains(TaxableEventsFor(rule, events[..i])) + TaxableEventOf(rule, events[i]).acquisitionGain.total
  {
    assert events[..i + 1][..i] == events[..i];
    assert events[..i + 1][i] == events[i];
  }

  /**
   * The forEach every rule runs over its sales: push the taxable event and
   * add up the acquisition gains (only the two qualified rules use the sum).
   */
  method CollectTaxableEvents(rule: Rule, events: seq<EventWithRates>)
    returns (taxableEvents: seq<TaxableEventFr>, acquisitionGainEur: real)
    requires AllHaveRates(events)
    ensures taxableEvents == TaxableEventsFor(rule, events)
    ensures acquisitionGainEur == SumAcquisitionGains(taxableEvents)
  {
    taxableEvents := [];
    acquisitionGainEur := 0.0;
    for i := 0 to |events|
      invariant AllHaveRates(events[..i])
      invariant taxableEvents == TaxableEventsFor(rule, events[..i])
      invariant acquisitionGainEur == SumAcquisitionGains(taxableEvents)
    {
      TaxableEventsStep(rule, events, i);
      assert events[i] in events;
      var taxableEvent := TaxableEventOf(rule, events[i]);
      taxableEvents := taxableEvents + [taxableEvent];
      acquisitionGainEur := acquisitionGainEur + taxableEvent.acquisitionGain.total;
    }
    assert events[..|events|] == events;
  }

  /**
   * The builder mutates the very taxable events a rule's earlier explanation
   * holds; explanation k is pointed at the builder's updated list.
   */
  function Relink(t: FrTaxes, k: nat, events: seq<TaxableEventFr>): (r: FrTaxes)
    requires k < |t.explanations|
    ensures |r.explanations| == |t.explanations|
    ensures r.explanations[k].box == t.explanations[k].box && r.explanations[k].taxableEvents == events
    ensures forall j :: 0 <= j < |t.explanations| && j != k ==> r.explanations[j] == t.explanations[j]
    ensures r == t.(explanations := r.explanations)
  {
    t.(explanations := t.explanations[k := t.explanations[k].(taxableEvents := events)])
  }

  /** The 300 000 EUR threshold of the RSU acquisition gain rebate. */
  const RsuThreshold: real := 300000.0

  function Min(a: real, b: real): real { if a <= b then a else b }

  function Max(a: real, b: real): real { if a >= b then a else b }

  /** getFrTaxesForFrQualifiedSo, as a function of the sales and the return so far. */
  function FrQualifiedSoTaxes(gainsAndLosses: seq<EventWithRates>, taxes: FrTaxes): FrTaxes
    requires AllHaveRates(gainsAndLosses)
  {
    var taxableEvents := RuleEvents(FrQualifiedSo, gainsAndLosses);
    var floorAcquisitionGainEur := Floor6(SumAcquisitionGains(taxableEvents));
    var t0 := taxes.(box1TT := taxes.box1TT + floorAcquisitionGainEur);
    var t1 := t0.(explanations := t0.explanations + [Explanation(Box1TT, QualifiedSoAcquisitionGains, taxableEvents)]);
    var (t2, events) := CapitalGainTaxes(FrQualifiedSo, taxableEvents, t1);
    Relink(t2, |taxes.explanations|, events)
  }

  /** The explanations the RSU rule adds before the page builder runs. */
  function RsuExplanations(taxableEvents: seq<TaxableEventFr>, acquisitionGainEur: real): seq<Explanation>
  {
    (if acquisitionGainEur > 0.0
     then [Explanation(Box1TZ, RsuGainsBelowThreshold, taxableEvents), Explanation(Box1WZ, RsuDiscount, [])]
     else []) +
    (if Floor6(acquisitionGainEur) > RsuThreshold then [Explanation(Box1TT, RsuGainsAboveThreshold, [])] else [])
  }

  /**
   * The boxes the RSU rule fills in from the sum of its acquisition gains:
   * half the part up to the threshold into both 1TZ and 1WZ, the part above
   * it into 1TT.
   */
  function RsuBoxes(taxes: FrTaxes, acquisitionGainEur: real): FrTaxes
  {
    var floorAcquisitionGainEur := Floor6(acquisitionGainEur);
    var discount := Floor6(Min(floorAcquisitionGainEur, RsuThreshold) / 2.0);
    var below := if acquisitionGainEur > 0.0 then taxes.(box1TZ := taxes.box1TZ + discount).(box1WZ := taxes.box1WZ + discount) else taxes;
    if floorAcquisitionGainEur > RsuThreshold
    then below.(box1TT := below.box1TT + Max(floorAcquisitionGainEur - RsuThreshold, 0.0))
    else below
  }

  /** getFrTaxesForFrQualifiedRsu, as a function of the sales and the return so far. */
  function FrQualifiedRsuTaxes(gainsAndLosses: seq<EventWithRates>, taxes: FrTaxes): FrTaxes
    requires AllHaveRates(gainsAndLosses)
  {
    var taxableEvents := RuleEvents(FrQualifiedRsu, gainsAndLosses);
    var acquisitionGainEur := SumAcquisitionGains(taxableEvents);
    var boxes := RsuBoxes(taxes, acquisitionGainEur);
    var t1 := boxes.(explanations := boxes.explanations + RsuExplanations(taxableEvents, acquisitionGainEur));
    var (t2, events) := CapitalGainTaxes(FrQualifiedRsu, taxableEvents, t1);
    if acquisitionGainEur > 0.0 then Relink(t2, |taxes.explanations|, events) else t2
  }

  /** getFrTaxesForEspp, as a function of the sales and the return so far. */
  function EsppTaxes(gainsAndLosses: seq<EventWithRates>, taxes: FrTaxes): FrTaxes
    requires AllHaveRates(gainsAndLosses)
  {
    var taxableEvents := RuleEvents(Espp, gainsAndLosses);
    var t1 := taxes.(explanations := taxes.explanations + [Explanation(Box1AJ, EsppAcquisitionGainsElsewhere, [])]);
    CapitalGainTaxes(Espp, taxableEvents, t1).0
  }

  /** The reason of the 1AJ explanation of the two non-FR-qualified rules. */
  function NonFrReason(rule: Rule): Reason
  {
    if rule == NonFrQualifiedSo then NonQualifiedSoAcquisitionGainsElsewhere else NonQualifiedRsuAcquisitionGainsElsewhere
  }

  /** getFrTaxesForNonFrQualifiedSo and getFrTaxesForNonFrQualifiedRsu. */
  function NonFrQualifiedTaxes(rule: Rule, gainsAndLosses: seq<EventWithRates>, taxes: FrTaxes): FrTaxes
    requires rule == NonFrQualifiedSo || rule == NonFrQualifiedRsu
    requires AllHaveRates(gainsAndLosses)
  {
    var taxableEvents := RuleEvents(rule, gainsAndLosses);
    if |taxableEvents| == 0 then taxes
    else
      var t1 := taxes.(explanations := taxes.explanations + [Explanation(Box1AJ, NonFrReason(rule), taxableEvents)]);
      var (t2, events) := CapitalGainTaxes(rule, taxableEvents, t1);
      Relink(t2, |taxes.explanations|, events)
  }

  /** The return after one rule. */
  function RuleTaxes(rule: Rule, gainsAndLosses: seq<EventWithRates>, taxes: FrTaxes): FrTaxes
    requires AllHaveRates(gainsAndLosses)
  {
    match rule
    case FrQualifiedSo => FrQualifiedSoTaxes(gainsAndLosses, taxes)
    case FrQualifiedRsu => FrQualifiedRsuTaxes(gainsAndLosses, taxes)
    case Espp => EsppTaxes(gainsAndLosses, taxes)
    case _ => NonFrQualifiedTaxes(rule, gainsAndLosses, taxes)
  }

  method GetFrTaxesForFrQualifiedSo(gainsAndLosses: seq<EventWithRates>, taxes: FrTaxes) returns (r: FrTaxes)
    requires AllHaveRates(gainsAndLosses)
    ensures r == RuleTaxes(FrQualifiedSo, gainsAndLosses, taxes)
  {
    var qualifiedSo := Select(FrQualifiedSo, gainsAndLosses);
    var taxableEvents, acquisitionGainEur := CollectTaxableEvents(FrQualifiedSo, qualifiedSo);
    var floorAcquisitionGainEur := Floor6(acquisitionGainEur);
    r := taxes.(box1TT := taxes.box1TT + floorAcquisitionGainEur);
    var k := |r.explanations|;
    r := r.(explanations := r.explanations + [Explanation(Box1TT, QualifiedSoAcquisitionGains, taxableEvents)]);
    assert taxableEvents == RuleEvents(FrQualifiedSo, gainsAndLosses);
    ghost var t1 := r;
    var events;
    r, events := GetFrTaxesCapitalGain(FrQualifiedSo, taxableEvents, r);
    r := Relink(r, k, events);
    assert r == Relink(CapitalGainTaxes(FrQualifiedSo, taxableEvents, t1).0, k, CapitalGainTaxes(FrQualifiedSo, taxableEvents, t1).1);
  }

  /** The acquisition-gain half of getFrTaxesForFrQualifiedRsu: the boxes and their explanations. */
  method AddRsuAcquisitionGains(taxableEvents: seq<TaxableEventFr>, acquisitionGainEur: real, taxes: FrTaxes)
    returns (r: FrTaxes, explanations: seq<Explanation>)
    ensures r == RsuBoxes(taxes, acquisitionGainEur)
    ensures explanations == RsuExplanations(taxableEvents, acquisitionGainEur)
  {
    explanations := [];
    var floorAcquisitionGainEur := Floor6(acquisitionGainEur);
    r := taxes;
    if acquisitionGainEur > 0.0 {
      var discountableAcquisitionGainEur := Min(floorAcquisitionGainEur, RsuThreshold);
      r := r.(box1TZ := r.box1TZ + Floor6(discountableAcquisitionGainEur / 2.0));
      explanations := explanations + [Explanation(Box1TZ, RsuGainsBelowThreshold, taxableEvents)];
      r := r.(box1WZ := r.box1WZ + Floor6(discountableAcquisitionGainEur / 2.0));
      explanations := explanations + [Explanation(Box1WZ, RsuDiscount, [])];
    }
    if floorAcquisitionGainEur > RsuThreshold {
      r := r.(box1TT := r.box1TT + Max(floorAcquisitionGainEur - RsuThreshold, 0.0));
      explanations := explanations + [Explanation(Box1TT, RsuGainsAboveThreshold, [])];
    }
  }

  method GetFrTaxesForFrQualifiedRsu(gainsAndLosses: seq<EventWithRates>, taxes: FrTaxes) returns (r: FrTaxes)
    requires AllHaveRates(gainsAndLosses)
    ensures r == RuleTaxes(FrQualifiedRsu, gainsAndLosses, taxes)
  {
    var qualifiedRsu := Select(FrQualifiedRsu, gainsAndLosses);
    var taxableEvents, acquisitionGainEur := CollectTaxableEvents(FrQualifiedRsu, qualifiedRsu);
    assert taxableEvents == RuleEvents(FrQualifiedRsu, gainsAndLosses);
    var explanations;
    r, explanations := AddRsuAcquisitionGains(taxableEvents, acquisitionGainEur, taxes);
    var k := |r.explanations|;
    r := r.(explanations := r.explanations + explanations);
    ghost var t1 := r;
    var events;
    r, events := GetFrTaxesCapitalGain(FrQualifiedRsu, taxableEvents, r);
    if acquisitionGainEur > 0.0 {
      r := Relink(r, k, events);
    }
    assert r == if acquisitionGainEur > 0.0
      then Relink(CapitalGainTaxes(FrQualifiedRsu, taxableEvents, t1).0, k, CapitalGainTaxes(FrQualifiedRsu, taxableEvents, t1).1)
      else CapitalGainTaxes(FrQualifiedRsu, taxableEvents, t1).0;
  }

  method GetFrTaxesForEspp(gainsAndLosses: seq<EventWithRates>, taxes: FrTaxes) returns (r: FrTaxes)
    requires AllHaveRates(gainsAndLosses)
    ensures r == RuleTaxes(Espp, gainsAndLosses, taxes)
  {
    var eventsEspp := Select(Espp, gainsAndLosses);
    var taxableEvents, _ := CollectTaxableEvents(Espp, eventsEspp);
    r := taxes.(explanations := taxes.explanations + [Explanation(Box1AJ, EsppAcquisitionGainsElsewhere, [])]);
    var events;
    r, events := GetFrTaxesCapitalGain(Espp, taxableEvents, r);
  }

  method GetFrTaxesForNonFrQualified(rule: Rule, gainsAndLosses: seq<EventWithRates>, taxes: FrTaxes) returns (r: FrTaxes)
    requires rule == NonFrQualifiedSo || rule == NonFrQualifiedRsu
    requires AllHaveRates(gainsAndLosses)
    ensures r == RuleTaxes(rule, gainsAndLosses, taxes)
  {
    var nonQualified := Select(rule, gainsAndLosses);
    var taxableEvents, _ := CollectTaxableEvents(rule, nonQualified);
    if |taxableEvents| == 0 {
      return taxes;
    }
    var k := |taxes.explanations|;
    r := taxes.(explanations := taxes.explanations + [Explanation(Box1AJ, NonFrReason(rule), taxableEvents)]);
    var events;
    r, events := GetFrTaxesCapitalGain(rule, taxableEvents, r);
    r := Relink(r, k, events);
  }

  method GetFrTaxesForNonFrQualifiedSo(gainsAndLosses: seq<EventWithRates>, taxes: FrTaxes) returns (r: FrTaxes)
    requires AllHaveRates(gainsAndLosses)
    ensures r == RuleTaxes(NonFrQualifiedSo, gainsAndLosses, taxes)
  {
    r := GetFrTaxesForNonFrQualified(NonFrQualifiedSo, gainsAndLosses, taxes);
  }

  method GetFrTaxesForNonFrQualifiedRsu(gainsAndLosses: seq<EventWithRates>, taxes: FrTaxes) returns (r: FrTaxes)
    requires AllHaveRates(gainsAndLosses)
    ensures r == RuleTaxes(NonFrQualifiedRsu, gainsAndLosses, taxes)
  {
    r := GetFrTaxesForNonFrQualified(NonFrQualifiedRsu, gainsAndLosses, taxes);
  }
}
