/** lib/calc-totals.ts: the totals the interactive calculator shows for its sales. */
module CalcTotals {
  import opened Wrappers
  import opened AdjustedGainLoss

  /** The fields of a calculator sale that calcTotals reads; a rate is null while it loads. */
  datatype SaleEventData = SaleEventData(
    quantity: real,
    proceeds: real,
    adjustedCost: real,
    rateAcquired: Option<real>,
    rateSold: Option<real>,
    fractionFr: real)

  datatype Totals = Totals(gain: real, loss: real, income: real, incomeFr: real, proceeds: real)

  const NoTotals: Totals := Totals(0.0, 0.0, 0.0, 0.0, 0.0)

  /** Both rates are there (not null). */
  predicate HasBothRates(e: SaleEventData)
  {
    e.rateAcquired.Some? && e.rateSold.Some?
  }

  /** Every sale whose rates are there has non-zero rates: the divisions are finite. */
  predicate FiniteRates(events: seq<SaleEventData>)
  {
    forall i :: 0 <= i < |events| && HasBothRates(events[i]) ==>
      events[i].rateAcquired.value != 0.0 && events[i].rateSold.value != 0.0
  }

  /** The EUR gain or loss of a sale with both rates. */
  function GainLossOf(e: SaleEventData): real
    requires HasBothRates(e) && e.rateAcquired.value != 0.0 && e.rateSold.value != 0.0
  {
    GetAdjustedGainLoss(e.quantity, e.adjustedCost, e.proceeds, e.rateAcquired, e.rateSold).value
  }

  /** One step of the reduce, on a copy of the running totals. */
  function AddSale(acc: Totals, e: SaleEventData): Totals
    requires HasBothRates(e) && e.rateAcquired.value != 0.0 && e.rateSold.value != 0.0
  {
    var totals := acc.(income := acc.income + e.adjustedCost * e.quantity / e.rateAcquired.value)
                     .(incomeFr := acc.incomeFr + e.adjustedCost * e.quantity * e.fractionFr / e.rateAcquired.value)
                     .(proceeds := acc.proceeds + e.proceeds * e.quantity / e.rateSold.value);
    var gainLoss := GainLossOf(e);
    if gainLoss > 0.0 then totals.(gain := totals.gain + gainLoss)
    else if gainLoss < 0.0 then totals.(loss := totals.loss + gainLoss)
    else totals
  }

  /** calcTotals: the reduce from null over the sales, skipping those without both rates. */
  function CalcTotals(events: seq<SaleEventData>): Option<Totals>
    requires FiniteRates(events)
  {
    if |events| == 0 then None
    else
      var e := events[|events| - 1];
      var acc := CalcTotals(events[..|events| - 1]);
      if !HasBothRates(e) then acc
      else Some(AddSale(if acc.None? then NoTotals else acc.value, e))
  }

  /** What one sale adds to each total: nothing without both rates; its gain or its loss, never both. */
  function Contribution(e: SaleEventData): (c: Totals)
    requires HasBothRates(e) ==> e.rateAcquired.value != 0.0 && e.rateSold.value != 0.0
    ensures c.gain >= 0.0 && c.loss <= 0.0
    ensures !HasBothRates(e) ==> c == NoTotals
  {
    if !HasBothRates(e) then NoTotals
    else
      var gainLoss := GainLossOf(e);
      Totals(if gainLoss > 0.0 then gainLoss else 0.0,
             if gainLoss < 0.0 then gainLoss else 0.0,
             e.adjustedCost * e.quantity / e.rateAcquired.value,
             e.adjustedCost * e.quantity * e.fractionFr / e.rateAcquired.value,
             e.proceeds * e.quantity / e.rateSold.value)
  }

  /** Field-by-field sum of the sales' contributions. */
  function SumContributions(events: seq<SaleEventData>): (t: Totals)
    requires FiniteRates(events)
    ensures t.gain >= 0.0 && t.loss <= 0.0
  {
    if |events| == 0 then NoTotals
    else
      var s := SumContributions(events[..|events| - 1]);
      var c := Contribution(events[|events| - 1]);
      Totals(s.gain + c.gain, s.loss + c.loss, s.income + c.income, s.incomeFr + c.incomeFr, s.proceeds + c.proceeds)
  }

  predicate AnyRated(events: seq<SaleEventData>)
  {
    exists i :: 0 <= i < |events| && HasBothRates(events[i])
  }

  /**
   * The result is null iff no sale has both rates; otherwise each total is
   * the sum over the sales with both rates (gain the positive results, loss
   * the negative ones), so gain >= 0 and loss <= 0.
   */
  lemma {:induction false} CalcTotalsIsSum(events: seq<SaleEventData>)
    requires FiniteRates(events)
    ensures CalcTotals(events).None? <==> !AnyRated(events)
    ensures AnyRated(events) ==> CalcTotals(events) == Some(SumContributions(events))
    ensures AnyRated(events) ==> CalcTotals(events).value.gain >= 0.0 && CalcTotals(events).value.loss <= 0.0
  {
    if |events| > 0 {
      var init := events[..|events| - 1];
      var e := events[|events| - 1];
      assert FiniteRates(init) by {
        forall i | 0 <= i < |init| && HasBothRates(init[i])
          ensures init[i].rateAcquired.value != 0.0 && init[i].rateSold.value != 0.0
        {
          assert init[i] == events[i];
        }
      }
      CalcTotalsIsSum(init);
      assert AnyRated(events) <==> AnyRated(init) || HasBothRates(e) by {
        if AnyRated(init) {
          var i :| 0 <= i < |init| && HasBothRates(init[i]);
          assert events[i] == init[i];
        }
        if AnyRated(events) && !HasBothRates(e) {
          var i :| 0 <= i < |events| && HasBothRates(events[i]);
          assert init[i] == events[i];
        }
      }
      if HasBothRates(e) && !AnyRated(init) {
        ZeroSum(init);
      }
    }
  }

  /** Sales without both rates add up to nothing. */
  lemma {:induction false} ZeroSum(events: seq<SaleEventData>)
    requires FiniteRates(events) && !AnyRated(events)
    ensures SumContributions(events) == NoTotals
  {
    if |events| > 0 {
      var init := events[..|events| - 1];
      assert !AnyRated(init) by {
        forall i | 0 <= i < |init|
          ensures !HasBothRates(init[i])
        {
          assert init[i] == events[i];
        }
      }
      ZeroSum(init);
      assert !HasBothRates(events[|events| - 1]);
    }
  }

  function TestSale(adjustedCost: real): SaleEventData
  {
    SaleEventData(10.0, 100.0, adjustedCost, Some(1.0), Some(1.0), 1.0)
  }

  /** Two sales at rate 1, one at cost 200 and one at no cost: gain 1000, loss -1000. */
  lemma GainAndLossExample()
    ensures CalcTotals([TestSale(200.0), TestSale(0.0)]) == Some(Totals(1000.0, -1000.0, 2000.0, 2000.0, 2000.0))
  {
    var s := [TestSale(200.0), TestSale(0.0)];
    assert s[..1] == [TestSale(200.0)];
    assert s[..1][..0] == [];
    assert GainLossOf(TestSale(200.0)) == -1000.0;
    assert GainLossOf(TestSale(0.0)) == 1000.0;
  }

  /** A sale whose rates are still loading leaves the totals null. */
  lemma LoadingExample()
    ensures CalcTotals([SaleEventData(10.0, 100.0, 10.0, None, None, 1.0)]).None?
  {
    var s := [SaleEventData(10.0, 100.0, 10.0, None, None, 1.0)];
    assert s[..0] == [];
  }
}
