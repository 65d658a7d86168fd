/**
 * The totals panel of the shared calculator (app/guide/shared/Calculator/Calculator.tsx):
 * the 300 000 € abatement on qualified restricted-stock income and the boxes it shows.
 */
module AbatementCalculator {
  import opened Wrappers
  import opened CalcTotals

  /** Income up to this amount gets a 50 % abatement. */
  const AbatementThreshold: real := 300000.0

  /** getAboveAbatementThreshold: the part of `value` above 300 000. */
  function AboveAbatementThreshold(value: real): (r: real)
    ensures r >= 0.0
    ensures value <= AbatementThreshold ==> r == 0.0
    ensures value > AbatementThreshold ==> r == value - AbatementThreshold
  {
    (if value > AbatementThreshold then value else AbatementThreshold) - AbatementThreshold
  }

  /** getAbatement: half of the income up to the threshold. */
  function Abatement(income: real): (r: real)
    ensures income <= AbatementThreshold ==> r == income / 2.0
    ensures income > AbatementThreshold ==> r == AbatementThreshold / 2.0
  {
    (income - AboveAbatementThreshold(income)) / 2.0
  }

  /** The figures of the totals panel; null while no sale has both rates. */
  datatype Summary = Summary(
    gain: Option<real>,       // 1133-A
    loss: Option<real>,       // 1133-B
    net: Option<real>,
    box1TT: Option<real>,
    box1TZ: Option<real>,
    box1WZ: Option<real>)

  function SummaryOf(totals: Option<Totals>): Summary
  {
    match totals
    case None => Summary(None, None, None, None, None, None)
    case Some(t) =>
      Summary(Some(t.gain), Some(t.loss), Some(t.gain + t.loss),
        Some(AboveAbatementThreshold(t.incomeFr)),
        Some(t.incomeFr - Abatement(t.incomeFr)),
        Some(Abatement(t.incomeFr)))
  }

  /**
   * The panel shows the net capital result gain + loss; 1TZ and 1WZ add up
   * to the French income and are equal exactly when it is at most 300 000;
   * above it 1TZ exceeds 1WZ by 1TT, the part above the threshold.
   */
  lemma SummaryBoxes(totals: Option<Totals>)
    ensures var s := SummaryOf(totals);
      && (s.net.None? <==> totals.None?)
      && (totals.Some? ==>
        var f := totals.value.incomeFr;
        && s.net == Some(totals.value.gain + totals.value.loss)
        && s.box1TZ.value + s.box1WZ.value == f
        && (s.box1TZ == s.box1WZ <==> f <= AbatementThreshold)
        && s.box1TZ.value - s.box1WZ.value == s.box1TT.value
        && (f >= 0.0 ==> 0.0 <= s.box1WZ.value <= AbatementThreshold / 2.0))
  {
  }
}
