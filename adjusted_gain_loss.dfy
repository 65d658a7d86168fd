/** lib/get-adjusted-gain-loss.ts: the EUR gain or loss of one sale. */
module AdjustedGainLoss {
  import opened Wrappers

  /** A rate JavaScript treats as true: present and not 0. */
  predicate Truthy(rate: Option<real>)
  {
    rate.Some? && rate.value != 0.0
  }

  /**
   * getAdjustedGainLoss: proceeds converted at the sale rate less the
   * adjusted cost converted at the acquisition rate; null unless both rates
   * are truthy.
   */
  function GetAdjustedGainLoss(quantity: real, adjustedCost: real, proceeds: real,
                               rateAcquired: Option<real>, rateSold: Option<real>): (r: Option<real>)
    ensures r.Some? <==> Truthy(rateAcquired) && Truthy(rateSold)
  {
    if Truthy(rateAcquired) && Truthy(rateSold) then
      Some(proceeds * quantity / rateSold.value - adjustedCost * quantity / rateAcquired.value)
    else None
  }

  /** The per-share EUR sale value less the per-share EUR cost. */
  function PerShareMargin(adjustedCost: real, proceeds: real, rateAcquired: real, rateSold: real): real
    requires rateAcquired != 0.0 && rateSold != 0.0
  {
    proceeds / rateSold - adjustedCost / rateAcquired
  }

  /**
   * With two numeric, non-zero rates the result is a number: the quantity
   * times the per-share margin. Its sign is that of the margin when the
   * quantity is positive, so the sale is a gain iff the EUR sale price beats
   * the EUR cost, and it is 0 when they are equal.
   */
  lemma GainLossSign(quantity: real, adjustedCost: real, proceeds: real, rateAcquired: real, rateSold: real)
    requires rateAcquired != 0.0 && rateSold != 0.0
    ensures var r := GetAdjustedGainLoss(quantity, adjustedCost, proceeds, Some(rateAcquired), Some(rateSold));
      var m := PerShareMargin(adjustedCost, proceeds, rateAcquired, rateSold);
      && r.Some?
      && r.value == quantity * m
      && (quantity > 0.0 ==> (r.value > 0.0 <==> proceeds / rateSold > adjustedCost / rateAcquired))
      && (quantity > 0.0 ==> (r.value < 0.0 <==> proceeds / rateSold < adjustedCost / rateAcquired))
      && (proceeds / rateSold == adjustedCost / rateAcquired ==> r.value == 0.0)
  {
    var m := PerShareMargin(adjustedCost, proceeds, rateAcquired, rateSold);
    assert proceeds * quantity / rateSold == quantity * (proceeds / rateSold);
    assert adjustedCost * quantity / rateAcquired == quantity * (adjustedCost / rateAcquired);
    assert quantity * (proceeds / rateSold) - quantity * (adjustedCost / rateAcquired) == quantity * m;
    if quantity > 0.0 {
      assert m > 0.0 ==> quantity * m > 0.0;
      assert m < 0.0 ==> quantity * m < 0.0;
      assert m == 0.0 ==> quantity * m == 0.0;
    }
  }
}
