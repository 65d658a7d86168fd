/** applyFrTaxes: the five French rules folded over an empty return (lib/taxes/taxes-rules-fr.ts). */
module FrTaxEngine {
  import opened Wrappers
  import opened Dates
  import opened EtradeTypes
  import opened TaxableEventFr
  import opened FrTaxReturn
  import opened TaxesRulesFr
  import opened FrRulesProperties
  import opened EnrichFr

  /** The rules in the order applyFrTaxes reduces over them. */
  const Rules: seq<Rule> := [FrQualifiedSo, FrQualifiedRsu, Espp, NonFrQualifiedSo, NonFrQualifiedRsu]

  /** The reduce: each rule in turn, starting from taxes. */
  function ApplyRules(rules: seq<Rule>, gainsAndLosses: seq<EventWithRates>, taxes: FrTaxes): FrTaxes
    requires AllHaveRates(gainsAndLosses)
  {
    if |rules| == 0 then taxes
    else RuleTaxes(rules[|rules| - 1], gainsAndLosses, ApplyRules(rules[..|rules| - 1], gainsAndLosses, taxes))
  }

  /** Running the first k + 1 rules is running rule k after the first k. */
  lemma ApplyRulesStep(rules: seq<Rule>, k: nat, gainsAndLosses: seq<EventWithRates>, taxes: FrTaxes)
    requires AllHaveRates(gainsAndLosses) && k < |rules|
    ensures ApplyRules(rules[..k + 1], gainsAndLosses, taxes)
         == RuleTaxes(rules[k], gainsAndLosses, ApplyRules(rules[..k], gainsAndLosses, taxes))
  {
    assert rules[..k + 1][..k] == rules[..k];
  }

  /** Any sequence of rules keeps the return balanced. */
  lemma {:induction false} ApplyRulesKeepsBalance(rules: seq<Rule>, gainsAndLosses: seq<EventWithRates>, taxes: FrTaxes)
    requires AllHaveRates(gainsAndLosses)
    requires Balanced(taxes)
    ensures Balanced(ApplyRules(rules, gainsAndLosses, taxes))
  {
    if |rules| > 0 {
      ApplyRulesKeepsBalance(rules[..|rules| - 1], gainsAndLosses, taxes);
      RuleKeepsBalance(rules[|rules| - 1], gainsAndLosses, ApplyRules(rules[..|rules| - 1], gainsAndLosses, taxes));
    }
  }

  /** Running one more rule after a list of rules. */
  lemma ApplyRulesSnoc(rules: seq<Rule>, rule: Rule, gainsAndLosses: seq<EventWithRates>, taxes: FrTaxes)
    requires AllHaveRates(gainsAndLosses)
    ensures ApplyRules(rules + [rule], gainsAndLosses, taxes)
         == RuleTaxes(rule, gainsAndLosses, ApplyRules(rules, gainsAndLosses, taxes))
  {
    assert (rules + [rule])[..|rules|] == rules;
  }

  /** The fold over the five rules of applyFrTaxes, written out. */
  lemma ApplyFiveRules(gainsAndLosses: seq<EventWithRates>, taxes: FrTaxes)
    requires AllHaveRates(gainsAndLosses)
    ensures var gl := gainsAndLosses;
      ApplyRules(Rules, gl, taxes)
      == RuleTaxes(NonFrQualifiedRsu, gl, RuleTaxes(NonFrQualifiedSo, gl, RuleTaxes(Espp, gl,
           RuleTaxes(FrQualifiedRsu, gl, RuleTaxes(FrQualifiedSo, gl, taxes)))))
  {
    var gl := gainsAndLosses;
    var r1: seq<Rule> := [FrQualifiedSo];
    var r2 := r1 + [FrQualifiedRsu];
    var r3 := r2 + [Espp];
    var r4 := r3 + [NonFrQualifiedSo];
    var r5 := r4 + [NonFrQualifiedRsu];
    assert r5 == Rules;
    ApplyRulesSnoc([], FrQualifiedSo, gl, taxes);
    assert [] + [FrQualifiedSo] == r1;
    ApplyRulesSnoc(r1, FrQualifiedRsu, gl, taxes);
    ApplyRulesSnoc(r2, Espp, gl, taxes);
    ApplyRulesSnoc(r3, NonFrQualifiedSo, gl, taxes);
    ApplyRulesSnoc(r4, NonFrQualifiedRsu, gl, taxes);
  }

  /** The return applyFrTaxes produces is balanced: 3VG is the sum of all 524 lines and 1TZ = 1WZ. */
  lemma ApplyFrTaxesBalanced(gainsAndLosses: seq<EventWithRates>)
    requires AllHaveRates(gainsAndLosses)
    ensures Balanced(ApplyRules(Rules, gainsAndLosses, GetEmptyTaxes()))
  {
    EmptyTaxesBalanced();
    ApplyRulesKeepsBalance(Rules, gainsAndLosses, GetEmptyTaxes());
  }

  /** Its pages come rule by rule, each rule's in the order of its sales. */
  lemma ApplyFrTaxesPages(gainsAndLosses: seq<EventWithRates>)
    requires AllHaveRates(gainsAndLosses)
    ensures var gl := gainsAndLosses;
      ApplyRules(Rules, gl, GetEmptyTaxes()).page510
      == NewPages(RuleEvents(FrQualifiedSo, gl)) + NewPages(RuleEvents(FrQualifiedRsu, gl))
         + NewPages(RuleEvents(Espp, gl)) + NewPages(RuleEvents(NonFrQualifiedSo, gl))
         + NewPages(RuleEvents(NonFrQualifiedRsu, gl))
  {
    var gl := gainsAndLosses;
    var t0 := GetEmptyTaxes();
    var t1 := RuleTaxes(FrQualifiedSo, gl, t0);
    var t2 := RuleTaxes(FrQualifiedRsu, gl, t1);
    var t3 := RuleTaxes(Espp, gl, t2);
    var t4 := RuleTaxes(NonFrQualifiedSo, gl, t3);
    ApplyFiveRules(gl, t0);
    RuleAddsItsPages(FrQualifiedSo, gl, t0);
    RuleAddsItsPages(FrQualifiedRsu, gl, t1);
    RuleAddsItsPages(Espp, gl, t2);
    RuleAddsItsPages(NonFrQualifiedSo, gl, t3);
    RuleAddsItsPages(NonFrQualifiedRsu, gl, t4);
    assert [] + NewPages(RuleEvents(FrQualifiedSo, gl)) == NewPages(RuleEvents(FrQualifiedSo, gl));
  }

  /**
   * Its income boxes: 1TZ = 1WZ holds the RSU discount (at most 150 000),
   * 1TT the SO gains plus the RSU gains above 300 000, and 1AJ and 3VH
   * stay 0.
   */
  lemma ApplyFrTaxesBoxes(gainsAndLosses: seq<EventWithRates>)
    requires AllHaveRates(gainsAndLosses)
    ensures var r := ApplyRules(Rules, gainsAndLosses, GetEmptyTaxes());
      var rsuGain := SumAcquisitionGains(RuleEvents(FrQualifiedRsu, gainsAndLosses));
      && r.box1TT == Floor6(SumAcquisitionGains(RuleEvents(FrQualifiedSo, gainsAndLosses))) + RsuAboveThresholdOf(rsuGain)
      && r.box1TZ == RsuDiscountOf(rsuGain) && r.box1WZ == RsuDiscountOf(rsuGain)
      && 0.0 <= r.box1TZ <= 150000.0
      && r.box1AJ == 0.0 && r.box3VH == 0.0
  {
    var gl := gainsAndLosses;
    var t0 := GetEmptyTaxes();
    var t1 := RuleTaxes(FrQualifiedSo, gl, t0);
    var t2 := RuleTaxes(FrQualifiedRsu, gl, t1);
    var t3 := RuleTaxes(Espp, gl, t2);
    var t4 := RuleTaxes(NonFrQualifiedSo, gl, t3);
    ApplyFiveRules(gl, t0);
    QualifiedSoBoxes(gl, t0);
    QualifiedRsuBoxes(gl, t1);
    OtherRulesKeepIncomeBoxes(Espp, gl, t2);
    OtherRulesKeepIncomeBoxes(NonFrQualifiedSo, gl, t3);
    OtherRulesKeepIncomeBoxes(NonFrQualifiedRsu, gl, t4);
    RuleAddsItsPages(FrQualifiedSo, gl, t0);
    RuleAddsItsPages(FrQualifiedRsu, gl, t1);
    RuleAddsItsPages(Espp, gl, t2);
    RuleAddsItsPages(NonFrQualifiedSo, gl, t3);
    RuleAddsItsPages(NonFrQualifiedRsu, gl, t4);
    RsuThresholdSplit(SumAcquisitionGains(RuleEvents(FrQualifiedRsu, gl)));
  }

  /** One step of the reduce: the rule function the array holds at that place. */
  method RunRule(rule: Rule, gainsAndLosses: seq<EventWithRates>, taxes: FrTaxes) returns (r: FrTaxes)
    requires AllHaveRates(gainsAndLosses)
    ensures r == RuleTaxes(rule, gainsAndLosses, taxes)
  {
    match rule
    case FrQualifiedSo => r := GetFrTaxesForFrQualifiedSo(gainsAndLosses, taxes);
    case FrQualifiedRsu => r := GetFrTaxesForFrQualifiedRsu(gainsAndLosses, taxes);
    case Espp => r := GetFrTaxesForEspp(gainsAndLosses, taxes);
    case NonFrQualifiedSo => r := GetFrTaxesForNonFrQualifiedSo(gainsAndLosses, taxes);
    case NonFrQualifiedRsu => r := GetFrTaxesForNonFrQualifiedRsu(gainsAndLosses, taxes);
  }

  /**
   * applyFrTaxes: every rule enriches (and so re-sorts) the sales again
   * before it runs; the second and later sorts change nothing.
   */
  method ApplyFrTaxes(gainsAndLosses: array<GainAndLossEvent>, rates: map<Day, real>,
                      symbolPrices: map<string, map<Day, DailyPrice>>, fractions: seq<real>)
    returns (taxes: FrTaxes)
    requires EnrichInputs(gainsAndLosses[..], rates, symbolPrices, fractions)
    modifies gainsAndLosses
    ensures gainsAndLosses[..] == SortByDateSold(old(gainsAndLosses[..]))
    ensures EnrichInputs(gainsAndLosses[..], rates, symbolPrices, fractions)
    ensures taxes == ApplyRules(Rules, Enriched(gainsAndLosses[..], rates, symbolPrices, fractions), GetEmptyTaxes())
  {
    SortKeepsInputs(gainsAndLosses[..], rates, symbolPrices, fractions);
    SortByDateSoldIdempotent(gainsAndLosses[..]);
    ghost var sorted := SortByDateSold(gainsAndLosses[..]);
    taxes := GetEmptyTaxes();
    for k := 0 to |Rules|
      invariant k > 0 ==> gainsAndLosses[..] == sorted
      invariant k == 0 ==> gainsAndLosses[..] == old(gainsAndLosses[..])
      invariant EnrichInputs(sorted, rates, symbolPrices, fractions)
      invariant taxes == ApplyRules(Rules[..k], Enriched(sorted, rates, symbolPrices, fractions), GetEmptyTaxes())
    {
      var enriched := EnrichEtradeGlFrFr(gainsAndLosses, rates, symbolPrices, fractions);
      assert gainsAndLosses[..] == sorted;
      ApplyRulesStep(Rules, k, enriched, GetEmptyTaxes());
      taxes := RunRule(Rules[k], enriched, taxes);
    }
    assert Rules[..|Rules|] == Rules;
  }
}
