/**
 * Enrichment of the broker sales before the French rules run
 * (lib/taxes/taxes-rules-fr.ts): sort by sale day, attach the exchange
 * rates, the opening price of the acquisition day and the French fraction.
 */
module EnrichFr {
  import opened Wrappers
  import opened Dates
  import opened EtradeTypes
  import opened FrTaxReturn

  /** One day of a symbol's price table. */
  datatype DailyPrice = DailyPrice(opening: real, closing: real)

  /** How many earlier days getAdjustedSymbolDate tries at most. */
  const MaxIterations: nat := 10

  /** The first day of date, date - 1, ..., date - n that has a price. */
  function SearchBack(date: Day, n: nat, prices: map<Day, DailyPrice>): (r: Option<Day>)
    ensures r.Some? ==> r.value in prices && date - n <= r.value <= date
    decreases n
  {
    if date in prices then Some(date)
    else if n == 0 then None
    else SearchBack(date - 1, n - 1, prices)
  }

  /** The price day getAdjustedSymbolDate resolves for a day. */
  function AdjustedSymbolDate(date: Day, prices: map<Day, DailyPrice>): Option<Day>
  {
    SearchBack(date, MaxIterations, prices)
  }

  lemma {:induction false} SearchBackIsLatest(date: Day, n: nat, prices: map<Day, DailyPrice>)
    ensures SearchBack(date, n, prices).Some? ==>
      forall d :: SearchBack(date, n, prices).value < d <= date ==> d !in prices
    ensures SearchBack(date, n, prices).None? ==> forall d :: date - n <= d <= date ==> d !in prices
    decreases n
  {
    if date !in prices && n > 0 {
      SearchBackIsLatest(date - 1, n - 1, prices);
    }
  }

  /**
   * The resolved day is the latest day with a price among the day itself
   * and the 10 days before it; there is none exactly when none of those
   * 11 days has a price. It is never later than the day asked for.
   */
  lemma AdjustedSymbolDateSpec(date: Day, prices: map<Day, DailyPrice>)
    ensures date in prices ==> AdjustedSymbolDate(date, prices) == Some(date)
    ensures AdjustedSymbolDate(date, prices).Some? ==>
      var d := AdjustedSymbolDate(date, prices).value;
      && d in prices && date - MaxIterations <= d <= date
      && forall later :: d < later <= date ==> later !in prices
    ensures AdjustedSymbolDate(date, prices).None? <==>
      forall d :: date - MaxIterations <= d <= date ==> d !in prices
  {
    SearchBackIsLatest(date, MaxIterations, prices);
  }

  /**
   * getAdjustedSymbolDate: walk back one day at a time, at most 10 times,
   * until the price table has the day.
   */
  method GetAdjustedSymbolDate(date: Day, symbolPrices: map<Day, DailyPrice>) returns (r: Option<Day>)
    ensures r == AdjustedSymbolDate(date, symbolPrices)
  {
    var currentIteration := 0;
    var dateToConsider := date;
    var symbolDate: Option<DailyPrice> := if dateToConsider in symbolPrices then Some(symbolPrices[dateToConsider]) else None;
    while symbolDate.None? && currentIteration < MaxIterations
      invariant 0 <= currentIteration <= MaxIterations
      invariant dateToConsider == date - currentIteration
      invariant symbolDate.Some? <==> dateToConsider in symbolPrices
      invariant AdjustedSymbolDate(date, symbolPrices) == SearchBack(dateToConsider, MaxIterations - currentIteration, symbolPrices)
      decreases MaxIterations - currentIteration
    {
      // the day before; the text form agrees for years 100..9999 (Dates.PreviousDayTextIsDayBefore)
      dateToConsider := dateToConsider - 1;
      symbolDate := if dateToConsider in symbolPrices then Some(symbolPrices[dateToConsider]) else None;
      currentIteration := currentIteration + 1;
    }
    if symbolDate.None? {
      return None;
    }
    return Some(dateToConsider);
  }

  /** Sale days never decrease along s. */
  predicate SortedByDateSold(s: seq<GainAndLossEvent>)
  {
    forall i, j :: 0 <= i < j < |s| ==> s[i].dateSold <= s[j].dateSold
  }

  /** Insert e after every element of s sold on or before e's sale day. */
  function Insert(e: GainAndLossEvent, s: seq<GainAndLossEvent>): (r: seq<GainAndLossEvent>)
    ensures |r| == |s| + 1
    ensures multiset(r) == multiset(s) + multiset{e}
  {
    if |s| == 0 then [e]
    else if s[|s| - 1].dateSold <= e.dateSold then s + [e]
    else
      assert s == s[..|s| - 1] + [s[|s| - 1]];
      Insert(e, s[..|s| - 1]) + [s[|s| - 1]]
  }

  /**
   * data.sort by dateSold: a stable sort (elements sold the same day keep
   * their order), written as an insertion sort.
   */
  function SortByDateSold(s: seq<GainAndLossEvent>): (r: seq<GainAndLossEvent>)
    ensures |r| == |s|
  {
    if |s| == 0 then [] else Insert(s[|s| - 1], SortByDateSold(s[..|s| - 1]))
  }

  lemma AppendSorted(s: seq<GainAndLossEvent>, x: GainAndLossEvent)
    requires SortedByDateSold(s)
    requires forall i :: 0 <= i < |s| ==> s[i].dateSold <= x.dateSold
    ensures SortedByDateSold(s + [x])
  {
  }

  lemma {:induction false} InsertSorted(e: GainAndLossEvent, s: seq<GainAndLossEvent>)
    requires SortedByDateSold(s)
    ensures SortedByDateSold(Insert(e, s))
  {
    if |s| == 0 {
    } else if s[|s| - 1].dateSold <= e.dateSold {
      AppendSorted(s, e);
    } else {
      var init, last := s[..|s| - 1], s[|s| - 1];
      InsertSorted(e, init);
      var r := Insert(e, init);
      assert Insert(e, s) == r + [last];
      forall i | 0 <= i < |r| ensures r[i].dateSold <= last.dateSold {
        assert r[i] in multiset(r);
        if r[i] != e {
          assert r[i] in multiset(init);
          var j :| 0 <= j < |init| && init[j] == r[i];
          assert s[j] == init[j];
        }
      }
      AppendSorted(r, last);
    }
  }

  /** The sort leaves the sales ordered by sale day. */
  lemma {:induction false} SortByDateSoldSorted(s: seq<GainAndLossEvent>)
    ensures SortedByDateSold(SortByDateSold(s))
  {
    if |s| > 0 {
      SortByDateSoldSorted(s[..|s| - 1]);
      InsertSorted(s[|s| - 1], SortByDateSold(s[..|s| - 1]));
    }
  }

  /** The sort only reorders the sales. */
  lemma {:induction false} SortByDateSoldPermutes(s: seq<GainAndLossEvent>)
    ensures multiset(SortByDateSold(s)) == multiset(s)
  {
    if |s| > 0 {
      SortByDateSoldPermutes(s[..|s| - 1]);
      assert s == s[..|s| - 1] + [s[|s| - 1]];
    }
  }

  /** Sorting sorted sales changes nothing, so sorting twice is sorting once. */
  lemma {:induction false} SortByDateSoldFixesSorted(s: seq<GainAndLossEvent>)
    requires SortedByDateSold(s)
    ensures SortByDateSold(s) == s
  {
    if |s| > 0 {
      var init, last := s[..|s| - 1], s[|s| - 1];
      assert SortedByDateSold(init);
      SortByDateSoldFixesSorted(init);
      assert SortByDateSold(s) == Insert(last, init);
      if |init| > 0 {
        assert init[|init| - 1].dateSold <= last.dateSold;
      }
      assert Insert(last, init) == init + [last];
      assert init + [last] == s;
    }
  }

  lemma SortByDateSoldIdempotent(s: seq<GainAndLossEvent>)
    ensures SortByDateSold(SortByDateSold(s)) == SortByDateSold(s)
  {
    SortByDateSoldSorted(s);
    SortByDateSoldFixesSorted(SortByDateSold(s));
  }

  /** data.sort(...): the array is reordered in place by sale day. */
  method SortInPlace(data: array<GainAndLossEvent>)
    modifies data
    ensures data[..] == SortByDateSold(old(data[..]))
  {
    var sorted := SortByDateSold(data[..]);
    forall i | 0 <= i < data.Length {
      data[i] := sorted[i];
    }
  }

  /** The French fraction of a sale no fraction is given for: the whole gain is French income. */
  const DefaultFractionFrIncome: real := 1.0

  /**
   * `fractions[eventIdx]` as the source reads it: past the end of the array
   * the value is undefined, written None.
   */
  function FractionAsWritten(fractions: seq<real>, i: nat): (r: Option<real>)
    ensures r.None? <==> i >= |fractions|
  {
    if i < |fractions| then Some(fractions[i]) else None
  }

  /** The fraction attached to the sale at sorted position i: its entry, or the default past the end. */
  function FractionFrIncome(fractions: seq<real>, i: nat): real
  {
    match FractionAsWritten(fractions, i)
    case Some(f) => f
    case None => DefaultFractionFrIncome
  }

  /** What enrichment needs: a nonzero rate for both days of every sale and a price table per symbol. */
  predicate EnrichInputs(s: seq<GainAndLossEvent>, rates: map<Day, real>,
                         symbolPrices: map<string, map<Day, DailyPrice>>, fractions: seq<real>)
  {
    && (forall i :: 0 <= i < |s| ==> s[i].dateAcquired in rates && s[i].dateSold in rates && s[i].symbol in symbolPrices)
    && (forall i :: 0 <= i < |s| ==> rates[s[i].dateAcquired] != 0.0 && rates[s[i].dateSold] != 0.0)
  }

  /** Sorting keeps what enrichment needs. */
  lemma SortKeepsInputs(s: seq<GainAndLossEvent>, rates: map<Day, real>,
                        symbolPrices: map<string, map<Day, DailyPrice>>, fractions: seq<real>)
    requires EnrichInputs(s, rates, symbolPrices, fractions)
    ensures EnrichInputs(SortByDateSold(s), rates, symbolPrices, fractions)
  {
    SortByDateSoldPermutes(s);
    var r := SortByDateSold(s);
    forall i | 0 <= i < |r|
      ensures r[i].dateAcquired in rates && r[i].dateSold in rates && r[i].symbol in symbolPrices
      ensures rates[r[i].dateAcquired] != 0.0 && rates[r[i].dateSold] != 0.0
    {
      assert r[i] in multiset(r);
      var j :| 0 <= j < |s| && s[j] == r[i];
    }
  }

  /** The record the map callback makes of the sale at sorted position i. */
  function EnrichOne(e: GainAndLossEvent, i: nat, rates: map<Day, real>,
                     symbolPrices: map<string, map<Day, DailyPrice>>, fractions: seq<real>): EventWithRates
    requires e.dateAcquired in rates && e.dateSold in rates && e.symbol in symbolPrices
  {
    var dateSymbolPriceAcquired := AdjustedSymbolDate(e.dateAcquired, symbolPrices[e.symbol]);
    var symbolPriceAcquired :=
      if dateSymbolPriceAcquired.Some? then symbolPrices[e.symbol][dateSymbolPriceAcquired.value].opening
      else e.purchaseDateFairMktValue;
    EventWithRates(
      e, rates[e.dateAcquired], rates[e.dateSold], symbolPriceAcquired, FractionFrIncome(fractions, i),
      if dateSymbolPriceAcquired.Some? && dateSymbolPriceAcquired.value != e.dateAcquired
      then dateSymbolPriceAcquired else None)
  }

  /** The enrichment of already sorted sales. */
  function Enriched(sorted: seq<GainAndLossEvent>, rates: map<Day, real>,
                    symbolPrices: map<string, map<Day, DailyPrice>>, fractions: seq<real>): (r: seq<EventWithRates>)
    requires EnrichInputs(sorted, rates, symbolPrices, fractions)
    ensures |r| == |sorted|
    ensures forall i :: 0 <= i < |sorted| ==> r[i] == EnrichOne(sorted[i], i, rates, symbolPrices, fractions)
    ensures forall e :: e in r ==> HasRates(e)
  {
    if |sorted| == 0 then []
    else
      var n := |sorted| - 1;
      Enriched(sorted[..n], rates, symbolPrices, fractions) + [EnrichOne(sorted[n], n, rates, symbolPrices, fractions)]
  }

  /** Enriching one more sorted sale appends its record. */
  lemma EnrichedStep(sorted: seq<GainAndLossEvent>, n: nat, rates: map<Day, real>,
                     symbolPrices: map<string, map<Day, DailyPrice>>, fractions: seq<real>)
    requires EnrichInputs(sorted, rates, symbolPrices, fractions) && n < |sorted|
    ensures EnrichInputs(sorted[..n], rates, symbolPrices, fractions)
    ensures EnrichInputs(sorted[..n + 1], rates, symbolPrices, fractions)
    ensures Enriched(sorted[..n + 1], rates, symbolPrices, fractions)
            == Enriched(sorted[..n], rates, symbolPrices, fractions) + [EnrichOne(sorted[n], n, rates, symbolPrices, fractions)]
  {
    assert sorted[..n + 1][..n] == sorted[..n];
  }

  /** The map callback of enrichEtradeGlFrFr for the sale at sorted position eventIdx. */
  method EnrichEvent(event: GainAndLossEvent, eventIdx: nat, rates: map<Day, real>,
                     symbolPrices: map<string, map<Day, DailyPrice>>, fractions: seq<real>)
    returns (record: EventWithRates)
    requires event.dateAcquired in rates && event.dateSold in rates && event.symbol in symbolPrices
    ensures record == EnrichOne(event, eventIdx, rates, symbolPrices, fractions)
  {
    var rateAcquired := rates[event.dateAcquired];
    var rateSold := rates[event.dateSold];
    var dateSymbolPriceAcquired := GetAdjustedSymbolDate(event.dateAcquired, symbolPrices[event.symbol]);
    var symbolPriceAcquired :=
      if dateSymbolPriceAcquired.Some? then symbolPrices[event.symbol][dateSymbolPriceAcquired.value].opening
      else event.purchaseDateFairMktValue;
    record := EventWithRates(
      event, rateAcquired, rateSold, symbolPriceAcquired, FractionFrIncome(fractions, eventIdx),
      if dateSymbolPriceAcquired.Some? && dateSymbolPriceAcquired.value != event.dateAcquired
      then dateSymbolPriceAcquired else None);
  }

  /**
   * enrichEtradeGlFrFr: sort the array in place by sale day, then make one
   * record per sale.
   */
  method EnrichEtradeGlFrFr(data: array<GainAndLossEvent>, rates: map<Day, real>,
                            symbolPrices: map<string, map<Day, DailyPrice>>, fractions: seq<real>)
    returns (r: seq<EventWithRates>)
    requires EnrichInputs(data[..], rates, symbolPrices, fractions)
    modifies data
    ensures data[..] == SortByDateSold(old(data[..]))
    ensures EnrichInputs(data[..], rates, symbolPrices, fractions)
    ensures r == Enriched(data[..], rates, symbolPrices, fractions)
  {
    SortKeepsInputs(data[..], rates, symbolPrices, fractions);
    SortInPlace(data);
    r := EnrichSorted(data[..], rates, symbolPrices, fractions);
  }

  /** The .map over the sorted sales: one record per sale, in order. */
  method EnrichSorted(sorted: seq<GainAndLossEvent>, rates: map<Day, real>,
                      symbolPrices: map<string, map<Day, DailyPrice>>, fractions: seq<real>)
    returns (r: seq<EventWithRates>)
    requires EnrichInputs(sorted, rates, symbolPrices, fractions)
    ensures r == Enriched(sorted, rates, symbolPrices, fractions)
  {
    r := [];
    for eventIdx := 0 to |sorted|
      invariant r == Enriched(sorted[..eventIdx], rates, symbolPrices, fractions)
    {
      EnrichedStep(sorted, eventIdx, rates, symbolPrices, fractions);
      var record := EnrichEvent(sorted[eventIdx], eventIdx, rates, symbolPrices, fractions);
      r := r + [record];
    }
    assert sorted[..|sorted|] == sorted;
  }

  /**
   * The enriched records: one per sale, in sale-day order, each sale's own
   * rates, the fraction of its sorted position (1 past the end of the
   * fractions), every rate usable, and a
   * price day recorded only when an earlier day had to be used.
   */
  lemma EnrichedSpec(s: seq<GainAndLossEvent>, rates: map<Day, real>,
                     symbolPrices: map<string, map<Day, DailyPrice>>, fractions: seq<real>)
    requires EnrichInputs(s, rates, symbolPrices, fractions)
    requires SortedByDateSold(s)
    ensures var r := Enriched(s, rates, symbolPrices, fractions);
      && |r| == |s|
      && (forall i, j :: 0 <= i < j < |r| ==> r[i].event.dateSold <= r[j].event.dateSold)
      && (forall i :: 0 <= i < |r| ==> r[i].event == s[i])
      && (forall i :: 0 <= i < |r| && i < |fractions| ==> r[i].fractionFrIncome == fractions[i])
      && (forall i :: |fractions| <= i < |r| ==> r[i].fractionFrIncome == DefaultFractionFrIncome)
      && (forall i :: 0 <= i < |r| ==>
            r[i].rateAcquired == rates[s[i].dateAcquired] && r[i].rateSold == rates[s[i].dateSold] && HasRates(r[i]))
      && (forall i :: 0 <= i < |r| && r[i].dateSymbolPriceAcquired.Some? ==>
            var d := r[i].dateSymbolPriceAcquired.value;
            s[i].dateAcquired - MaxIterations <= d < s[i].dateAcquired && d in symbolPrices[s[i].symbol] &&
            r[i].symbolPriceAcquired == symbolPrices[s[i].symbol][d].opening)
      && (forall i :: 0 <= i < |r| && AdjustedSymbolDate(s[i].dateAcquired, symbolPrices[s[i].symbol]).Some? ==>
            var d := AdjustedSymbolDate(s[i].dateAcquired, symbolPrices[s[i].symbol]).value;
            r[i].symbolPriceAcquired == symbolPrices[s[i].symbol][d].opening &&
            r[i].dateSymbolPriceAcquired == (if d != s[i].dateAcquired then Some(d) else None))
      && (forall i :: 0 <= i < |r| && s[i].dateAcquired in symbolPrices[s[i].symbol] ==>
            r[i].symbolPriceAcquired == symbolPrices[s[i].symbol][s[i].dateAcquired].opening &&
            r[i].dateSymbolPriceAcquired.None?)
      && (forall i :: 0 <= i < |r| && AdjustedSymbolDate(s[i].dateAcquired, symbolPrices[s[i].symbol]).None? ==>
            r[i].symbolPriceAcquired == s[i].purchaseDateFairMktValue && r[i].dateSymbolPriceAcquired.None?)
  {
    var r := Enriched(s, rates, symbolPrices, fractions);
    forall i | 0 <= i < |r|
      ensures r[i].rateAcquired == rates[s[i].dateAcquired] && r[i].rateSold == rates[s[i].dateSold] && HasRates(r[i])
    {
    }
    forall i | 0 <= i < |r| && s[i].dateAcquired in symbolPrices[s[i].symbol]
      ensures r[i].symbolPriceAcquired == symbolPrices[s[i].symbol][s[i].dateAcquired].opening
      ensures r[i].dateSymbolPriceAcquired.None?
    {
      AdjustedSymbolDateSpec(s[i].dateAcquired, symbolPrices[s[i].symbol]);
    }
  }

  /**
   * Lines 457-463 with the fraction as the source reads it: a product with
   * an undefined fraction is NaN, written None.
   */
  function AcquisitionGainAsWritten(t: TaxableEventFr.TaxableEventFr, fraction: Option<real>): (r: Option<real>)
    ensures r.None? <==> fraction.None?
  {
    match fraction
    case Some(f) => Some((t.acquisition.valueEur - t.acquisition.costEur) * f)
    case None => None
  }

  /** Where the source has a fraction, the model attaches that same fraction. */
  lemma FractionWhenGiven(fractions: seq<real>, i: nat)
    requires i < |fractions|
    ensures FractionAsWritten(fractions, i) == Some(FractionFrIncome(fractions, i))
    ensures FractionFrIncome(fractions, i) == fractions[i]
  {
  }

  /**
   * As written, a call with no fractions (the report's `[]` for a file
   * without restricted stock) leaves every sale's fraction undefined, so
   * every acquisition gain is NaN.
   */
  lemma NoFractionsAsWritten(s: seq<GainAndLossEvent>, rates: map<Day, real>,
                             symbolPrices: map<string, map<Day, DailyPrice>>, i: nat, c: AcquisitionChoice)
    requires EnrichInputs(s, rates, symbolPrices, []) && i < |s| && c.valueRate != 0.0
    ensures FractionAsWritten([], i).None?
    ensures var t := GetFrTaxableEventFromGainsAndLossEvent(Enriched(s, rates, symbolPrices, [])[i], c);
      AcquisitionGainAsWritten(t, FractionAsWritten([], i)).None?
  {
  }

  /**
   * With the documented default of 1, a call with no fractions gives every
   * sale fraction 1, so WholeFractionGains applies to every record.
   */
  lemma NoFractionsDefaultToOne(s: seq<GainAndLossEvent>, rates: map<Day, real>,
                                symbolPrices: map<string, map<Day, DailyPrice>>, i: nat)
    requires EnrichInputs(s, rates, symbolPrices, []) && i < |s|
    ensures Enriched(s, rates, symbolPrices, [])[i].fractionFrIncome == DefaultFractionFrIncome
    ensures HasRates(Enriched(s, rates, symbolPrices, [])[i])
  {
    var r := Enriched(s, rates, symbolPrices, []);
    assert r[i] in r;
  }

  /** A record with fraction 1 has its whole acquisition gain, and the two gains add up. */
  lemma WholeFractionGains(e: EventWithRates, c: AcquisitionChoice)
    requires HasRates(e) && c.valueRate != 0.0 && e.fractionFrIncome == DefaultFractionFrIncome
    ensures var t := GetFrTaxableEventFromGainsAndLossEvent(e, c);
      && t.acquisitionGain.perShare == t.acquisition.valueEur - t.acquisition.costEur
      && t.acquisitionGain.total == (t.acquisition.valueEur - t.acquisition.costEur) * t.quantity
      && t.capitalGain.total + t.acquisitionGain.total == (t.sell.value.eur - t.acquisition.costEur) * t.quantity
  {
    TaxableEventFigures(e, c);
    GainsAddUp(e, c);
  }
}
