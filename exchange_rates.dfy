/**
 * hooks/use-fetch-exr.ts without the fetching: the date a rate is asked
 * for, and how the answers of all the rate queries are merged.
 */
module ExchangeRates {
  import opened Wrappers
  import opened Dates
  import opened Weekdays

  /** The rate a query reports until its answer arrives. */
  const DefaultExchangeRate: real := 1.0

  /** lastDayWithAvailableRates: the date itself on a weekday, else the Friday before. */
  function LastDayWithAvailableRates(date: Day): (r: Day)
    ensures !IsWeekendDay(date) ==> r == date
    ensures DayOfWeek(date) == Saturday ==> r == date - 1
    ensures DayOfWeek(date) == Sunday ==> r == date - 2
    ensures !IsWeekendDay(r) && LastWeekday(r) == r
  {
    LastWeekdayIsFriday(date);
    if IsWeekendDay(date) then date - NumDaysSinceLastFriday(date) else date
  }

  /** Asking again for the date it returned gives the same date. */
  lemma LastDayWithAvailableRatesIdempotent(date: Day)
    ensures LastDayWithAvailableRates(LastDayWithAvailableRates(date)) == LastDayWithAvailableRates(date)
  {
  }

  /** What a query answered: the date asked for, repeated, and its rate. */
  datatype FetchResponse = FetchResponse(date: string, rate: real)

  /** One query's state as the hook sees it. */
  datatype QueryResult = QueryResult(isFetching: bool, isError: bool, data: Option<FetchResponse>)

  /** The query as stored in `responses`: its data replaced by the rate, or 1 without an answer. */
  datatype RateQuery = RateQuery(isFetching: bool, isError: bool, data: real)

  datatype UseExchangeRateResponse = UseExchangeRateResponse(
    isFetching: bool,
    isError: bool,
    responses: map<string, RateQuery>,
    values: map<string, real>)

  /** The query `responses` keeps: its data replaced by the rate, or 1 without an answer. */
  function QueryOf(result: QueryResult): RateQuery
  {
    RateQuery(result.isFetching, result.isError,
              if result.data.Some? then result.data.value.rate else DefaultExchangeRate)
  }

  /** The last query that answered for `date`, if any. */
  function LastAnswer(results: seq<QueryResult>, date: string): (r: Option<QueryResult>)
    ensures r.Some? ==> r.value in results && r.value.data.Some? && r.value.data.value.date == date
  {
    if |results| == 0 then None
    else
      var last := results[|results| - 1];
      if last.data.Some? && last.data.value.date == date then Some(last)
      else LastAnswer(results[..|results| - 1], date)
  }

  /** Some query answered for `date`. */
  predicate Answered(results: seq<QueryResult>, date: string)
  {
    exists i :: 0 <= i < |results| && results[i].data.Some? && results[i].data.value.date == date
  }

  /** There is a last answer for a date exactly when some query answered for it, and no later query did. */
  lemma {:induction false} LastAnswerIsLast(results: seq<QueryResult>, date: string)
    ensures LastAnswer(results, date).Some? <==> Answered(results, date)
    ensures LastAnswer(results, date).Some? ==>
      exists i :: 0 <= i < |results| && results[i] == LastAnswer(results, date).value
        && forall j :: i < j < |results| ==> !(results[j].data.Some? && results[j].data.value.date == date)
  {
    if |results| > 0 {
      var init := results[..|results| - 1];
      var last := results[|results| - 1];
      LastAnswerIsLast(init, date);
      if Answered(init, date) {
        var i :| 0 <= i < |init| && init[i].data.Some? && init[i].data.value.date == date;
        assert results[i] == init[i];
      }
      if !(last.data.Some? && last.data.value.date == date) {
        if Answered(results, date) {
          var i :| 0 <= i < |results| && results[i].data.Some? && results[i].data.value.date == date;
          assert init[i] == results[i];
        }
        if LastAnswer(init, date).Some? {
          var i :| 0 <= i < |init| && init[i] == LastAnswer(init, date).value
            && forall j :: i < j < |init| ==> !(init[j].data.Some? && init[j].data.value.date == date);
          assert results[i] == init[i];
          assert forall j :: i < j < |results| - 1 ==> results[j] == init[j];
        }
      } else {
        assert results[|results| - 1] == LastAnswer(results, date).value;
      }
    }
  }

  /**
   * The merging loop of useExchangeRates: isFetching and isError are the OR
   * over all queries, and a date has a value and a response exactly when a
   * query answered for it, the last such answer winning.
   */
  method CombineExchangeRates(results: seq<QueryResult>) returns (data: UseExchangeRateResponse)
    ensures data.isFetching <==> exists i :: 0 <= i < |results| && results[i].isFetching
    ensures data.isError <==> exists i :: 0 <= i < |results| && results[i].isError
    ensures data.responses.Keys == data.values.Keys
    ensures forall date :: date in data.values <==> LastAnswer(results, date).Some?
    ensures forall date :: date in data.values ==>
      && data.values[date] == LastAnswer(results, date).value.data.value.rate
      && data.responses[date] == QueryOf(LastAnswer(results, date).value)
  {
    data := UseExchangeRateResponse(false, false, map[], map[]);
    for n := 0 to |results|
      invariant data.isFetching <==> exists i :: 0 <= i < n && results[i].isFetching
      invariant data.isError <==> exists i :: 0 <= i < n && results[i].isError
      invariant data.responses.Keys == data.values.Keys
      invariant forall date :: date in data.values <==> LastAnswer(results[..n], date).Some?
      invariant forall date :: date in data.values ==>
        && data.values[date] == LastAnswer(results[..n], date).value.data.value.rate
        && data.responses[date] == QueryOf(LastAnswer(results[..n], date).value)
    {
      assert results[..n + 1][..n] == results[..n];
      var result := results[n];
      var query := QueryOf(result);
      data := data.(isFetching := data.isFetching || result.isFetching);
      data := data.(isError := data.isError || result.isError);
      if result.data.Some? {
        data := data.(responses := data.responses[result.data.value.date := query],
                      values := data.values[result.data.value.date := result.data.value.rate]);
      }
    }
    assert results[..|results|] == results;
  }
}
