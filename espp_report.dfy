/**
 * The ESPP calculator's gain and loss (app/guide/resident_fr/espp/sell_year/
 * grant_fr/report_fr): sales carry the fetched exchange-rate records.
 */
module EsppReport {
  import opened Wrappers
  import AdjustedGainLoss

  /** A fetched USD/EUR rate: null while loading or after an error. */
  datatype ExchangeRate = ExchangeRate(rate: Option<real>, isFetching: bool, errorMessage: Option<string>)

  /** A calculator sale; the dates are the texts the rates were fetched for. */
  datatype SaleEventData = SaleEventData(
    quantity: real,
    proceeds: real,
    adjustedCost: real,
    dateAcquired: string,
    dateSold: string,
    rateAcquired: ExchangeRate,
    rateSold: ExchangeRate)

  /** getAdjustedGainLoss over rate records: null unless both rates are truthy. */
  function GetAdjustedGainLoss(quantity: real, adjustedCost: real, proceeds: real,
                               dateAcquiredExr: ExchangeRate, dateSoldExr: ExchangeRate): (r: Option<real>)
    ensures r.Some? <==> AdjustedGainLoss.Truthy(dateAcquiredExr.rate) && AdjustedGainLoss.Truthy(dateSoldExr.rate)
  {
    if dateAcquiredExr.rate.Some? && dateAcquiredExr.rate.value != 0.0
       && dateSoldExr.rate.Some? && dateSoldExr.rate.value != 0.0
    then Some(proceeds * quantity / dateSoldExr.rate.value - adjustedCost * quantity / dateAcquiredExr.rate.value)
    else None
  }

  /**
   * Only the `.rate` of each record is read: the result is the shared
   * getAdjustedGainLoss on the two rates, whatever isFetching and
   * errorMessage say; it is 0 when the EUR sale and cost values per share
   * are equal.
   */
  lemma OnlyRatesMatter(quantity: real, adjustedCost: real, proceeds: real, acquired: ExchangeRate, sold: ExchangeRate)
    ensures GetAdjustedGainLoss(quantity, adjustedCost, proceeds, acquired, sold)
         == AdjustedGainLoss.GetAdjustedGainLoss(quantity, adjustedCost, proceeds, acquired.rate, sold.rate)
    ensures AdjustedGainLoss.Truthy(acquired.rate) && AdjustedGainLoss.Truthy(sold.rate)
            && proceeds / sold.rate.value == adjustedCost / acquired.rate.value
            ==> GetAdjustedGainLoss(quantity, adjustedCost, proceeds, acquired, sold) == Some(0.0)
  {
    if AdjustedGainLoss.Truthy(acquired.rate) && AdjustedGainLoss.Truthy(sold.rate) {
      AdjustedGainLoss.GainLossSign(quantity, adjustedCost, proceeds, acquired.rate.value, sold.rate.value);
    }
  }

  function GainLoss(e: SaleEventData): Option<real>
  {
    GetAdjustedGainLoss(e.quantity, e.adjustedCost, e.proceeds, e.rateAcquired, e.rateSold)
  }

  function OrZero(x: Option<real>): real
  {
    if x.Some? then x.value else 0.0
  }

  /** calcTotalGainLoss: the reduce from [null, null]; positive results add to the first, negative to the second. */
  function CalcTotalGainLoss(events: seq<SaleEventData>): (Option<real>, Option<real>)
  {
    if |events| == 0 then (None, None)
    else
      var (gain, loss) := CalcTotalGainLoss(events[..|events| - 1]);
      var gainLoss := GainLoss(events[|events| - 1]);
      if gainLoss.None? then (gain, loss)
      else if gainLoss.value > 0.0 then (Some(OrZero(gain) + gainLoss.value), Some(OrZero(loss)))
      else if gainLoss.value < 0.0 then (Some(OrZero(gain)), Some(OrZero(loss) + gainLoss.value))
      else (Some(OrZero(gain)), Some(OrZero(loss)))
  }

  /** Sum of the positive results of the sales whose rates are both truthy. */
  function TotalGain(events: seq<SaleEventData>): (r: real)
    ensures r >= 0.0
  {
    if |events| == 0 then 0.0
    else
      var g := GainLoss(events[|events| - 1]);
      TotalGain(events[..|events| - 1]) + (if g.Some? && g.value > 0.0 then g.value else 0.0)
  }

  /** Sum of the negative results of the sales whose rates are both truthy. */
  function TotalLoss(events: seq<SaleEventData>): (r: real)
    ensures r <= 0.0
  {
    if |events| == 0 then 0.0
    else
      var g := GainLoss(events[|events| - 1]);
      TotalLoss(events[..|events| - 1]) + (if g.Some? && g.value < 0.0 then g.value else 0.0)
  }

  predicate AnyPriced(events: seq<SaleEventData>)
  {
    exists i :: 0 <= i < |events| && GainLoss(events[i]).Some?
  }

  /**
   * The pair stays [null, null] until a sale has both rates; from then on
   * both parts are numbers: the sum of the gains (>= 0) and the sum of the
   * losses (<= 0). Sales without rates change nothing.
   */
  lemma {:induction false} CalcTotalGainLossIsSum(events: seq<SaleEventData>)
    ensures !AnyPriced(events) ==> CalcTotalGainLoss(events) == (None, None)
    ensures AnyPriced(events) ==> CalcTotalGainLoss(events) == (Some(TotalGain(events)), Some(TotalLoss(events)))
  {
    if |events| > 0 {
      var init := events[..|events| - 1];
      var e := events[|events| - 1];
      CalcTotalGainLossIsSum(init);
      if AnyPriced(init) {
        var i :| 0 <= i < |init| && GainLoss(init[i]).Some?;
        assert events[i] == init[i];
      }
      if !AnyPriced(init) {
        assert forall i :: 0 <= i < |events| - 1 ==> events[i] == init[i];
        if GainLoss(e).Some? {
          NothingPriced(init);
        }
      }
    }
  }

  /** Sales without rates have no gains and no losses. */
  lemma {:induction false} NothingPriced(events: seq<SaleEventData>)
    requires !AnyPriced(events)
    ensures TotalGain(events) == 0.0 && TotalLoss(events) == 0.0
  {
    if |events| > 0 {
      var init := events[..|events| - 1];
      assert !AnyPriced(init) by {
        forall i | 0 <= i < |init|
          ensures GainLoss(init[i]).None?
        {
          assert init[i] == events[i];
        }
      }
      NothingPriced(init);
      assert GainLoss(events[|events| - 1]).None?;
    }
  }

  function TestSale(adjustedCost: real): SaleEventData
  {
    var fetched := ExchangeRate(Some(1.0), false, None);
    SaleEventData(10.0, 100.0, adjustedCost, "2024-01-01", "2024-01-01", fetched, fetched)
  }

  /** A sale at cost 200 then one at no cost, at rate 1: [1000, -1000]; a loading sale: [null, null]. */
  lemma TotalGainLossExamples()
    ensures CalcTotalGainLoss([TestSale(200.0), TestSale(0.0)]) == (Some(1000.0), Some(-1000.0))
    ensures var loading := ExchangeRate(None, true, None);
      CalcTotalGainLoss([SaleEventData(10.0, 100.0, 10.0, "2024-01-01", "2024-01-01", loading, loading)]) == (None, None)
  {
    var s := [TestSale(200.0), TestSale(0.0)];
    assert s[..1] == [TestSale(200.0)];
    assert s[..1][..0] == [];
    var loading := ExchangeRate(None, true, None);
    var l := [SaleEventData(10.0, 100.0, 10.0, "2024-01-01", "2024-01-01", loading, loading)];
    assert l[..0] == [];
  }
}
