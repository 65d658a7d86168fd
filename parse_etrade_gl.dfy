/**
 * Row validation and mapping of the E*Trade Gain & Loss report
 * (lib/etrade/parse-etrade-gl.ts), over rows already read from the workbook.
 */
module ParseEtradeGL {
  import opened Wrappers
  import opened JsText
  import opened Dates
  import opened EtradeTypes

  /** A spreadsheet cell as sheet_to_json delivers it: text or a number. */
  datatype Cell = Text(text: string) | Num(value: real)

  /**
   * One report row; None is a column the row has no value for (its key is
   * absent from the row object).
   */
  datatype Row = Row(
    planType: Option<string>,
    symbol: Option<string>,
    qty: Option<Cell>,
    quantity: Option<Cell>,
    grantDate: Option<string>,
    dateAcquired: Option<string>,
    dateSold: Option<string>,
    proceedsPerShare: Option<Cell>,
    adjustedCostBasisPerShare: Option<Cell>,
    acquisitionCostPerShare: Option<Cell>,
    purchaseDateFairMktValue: Option<Cell>,
    qualifiedPlan: Option<string>)

  /** Why a row was refused. */
  datatype RowError =
    | InvalidNumber            // toNumber met NaN
    | NotAString               // split called on a missing date cell
    | InvalidTimeValue         // the date does not exist (toISOString throws)
    | UndefinedValue(key: string)

  /** The filter record accepted by createEtradeGLFilter; None is an absent key. */
  datatype GLFilter = GLFilter(planType: Option<PlanType>, qualifiedIn: Option<Qualification>)

  /** The test the filter's predicate applies to one event: every defined key matches. */
  predicate Accepts(filter: GLFilter, e: GainAndLossEvent)
  {
    (filter.planType.None? || e.planType == filter.planType.value) &&
    (filter.qualifiedIn.None? || e.qualifiedIn == filter.qualifiedIn.value)
  }

  /**
   * createEtradeGLFilter: a predicate accepting exactly the events equal to the
   * filter on every key the filter defines.
   */
  function CreateEtradeGLFilter(filter: GLFilter): (accepts: GainAndLossEvent -> bool)
    ensures forall e :: accepts(e) <==>
      (filter.planType.Some? ==> e.planType == filter.planType.value) &&
      (filter.qualifiedIn.Some? ==> e.qualifiedIn == filter.qualifiedIn.value)
  {
    (e: GainAndLossEvent) => Accepts(filter, e)
  }

  /** The filter with no key accepts every event. */
  lemma EmptyFilterAcceptsAll(e: GainAndLossEvent)
    ensures CreateEtradeGLFilter(GLFilter(None, None))(e)
  {
  }

  /** toNumber: a number passes unchanged, text goes through Number(), NaN throws. */
  function ToNumber(raw: Option<Cell>): (r: Result<real, RowError>)
    ensures raw.Some? && raw.value.Num? ==> r == Ok(raw.value.value)
    ensures raw.Some? && raw.value.Text? ==> (r.Ok? <==> JsNumber(raw.value.text).Some?)
    ensures raw.Some? && raw.value.Text? && r.Ok? ==> Some(r.value) == JsNumber(raw.value.text)
    ensures raw.None? ==> r == Err(InvalidNumber)
  {
    match raw
    case None => Err(InvalidNumber)
    case Some(Num(v)) => Ok(v)
    case Some(Text(s)) =>
      match JsNumber(s)
      case None => Err(InvalidNumber)
      case Some(v) => Ok(v)
  }

  /** ensureDefined on a text cell: absent or empty text throws, anything else is returned. */
  function EnsureDefined(value: Option<string>, key: string): (r: Result<string, RowError>)
    ensures r.Err? <==> value.None? || value.value == ""
    ensures r.Ok? ==> r.value == value.value
    ensures r.Err? ==> r.error == UndefinedValue(key)
  {
    if value.None? || value.value == "" then Err(UndefinedValue(key)) else Ok(value.value)
  }

  /** toDateString: parse "MM/DD/YYYY" and keep the UTC day getDateString renders. */
  function ToDate(raw: Option<string>): (r: Result<Day, RowError>)
    ensures r.Ok? <==> raw.Some? && ParseEtradeDate(raw.value).Some?
    ensures r.Ok? ==> Some(r.value) == ParseEtradeDate(raw.value)
  {
    match raw
    case None => Err(NotAString)
    case Some(s) =>
      match ParseEtradeDate(s)
      case None => Err(InvalidTimeValue)
      case Some(z) =>
        assert GetDateString(Some(z)).Ok?;
        Ok(z)
  }

  /** The plan type named by the Plan Type column. */
  function PlanTypeOf(s: string): (p: PlanType)
    ensures p == ESPP <==> s == "ESPP"
    ensures p == RS <==> s == "RS"
    ensures p == SO <==> s == "SO"
  {
    if s == "ESPP" then ESPP else if s == "RS" then RS else if s == "SO" then SO else OtherPlan(s)
  }

  /** "us" exactly when the Qualified Plan column says "Qualified", "fr" otherwise. */
  function QualifiedIn(qualifiedPlan: Option<string>): (q: Qualification)
    ensures q == Us <==> qualifiedPlan == Some("Qualified")
  {
    if qualifiedPlan == Some("Qualified") then Us else Fr
  }

  /** The quantity cell: "Qty." when the row has that key, "Quantity" otherwise. */
  function QuantityCell(row: Row): (c: Option<Cell>)
    ensures row.qty.Some? ==> c == row.qty
    ensures row.qty.None? ==> c == row.quantity
  {
    if row.qty.Some? then row.qty else row.quantity
  }

  /**
   * parseEtradeGLRow: read the cells in the source's order, throwing at the
   * first invalid one, then make sure plan type and symbol are defined.
   */
  function ParseEtradeGLRow(row: Row): Result<GainAndLossEvent, RowError>
  {
    var quantity :- ToNumber(QuantityCell(row));
    var dateGranted :- ToDate(row.grantDate);
    var dateAcquired :- ToDate(row.dateAcquired);
    var dateSold :- ToDate(row.dateSold);
    var proceeds :- ToNumber(row.proceedsPerShare);
    var adjustedCost :- ToNumber(row.adjustedCostBasisPerShare);
    var acquisitionCost :- ToNumber(row.acquisitionCostPerShare);
    var purchaseDateFairMktValue :- ToNumber(row.purchaseDateFairMktValue);
    var planType :- EnsureDefined(row.planType, "planType");
    var symbol :- EnsureDefined(row.symbol, "symbol");
    Ok(GainAndLossEvent(PlanTypeOf(planType), symbol, quantity, dateGranted, dateAcquired, dateSold,
      proceeds, adjustedCost, acquisitionCost, purchaseDateFairMktValue, QualifiedIn(row.qualifiedPlan)))
  }

  /**
   * A row is accepted exactly when every cell converts and plan type and
   * symbol are defined; the event then holds the converted cells, with "us"
   * qualification exactly for a "Qualified" plan.
   */
  lemma ParseEtradeGLRowSpec(row: Row)
    ensures ParseEtradeGLRow(row).Ok? <==>
      ToNumber(QuantityCell(row)).Ok? && ToDate(row.grantDate).Ok? && ToDate(row.dateAcquired).Ok? &&
      ToDate(row.dateSold).Ok? && ToNumber(row.proceedsPerShare).Ok? &&
      ToNumber(row.adjustedCostBasisPerShare).Ok? && ToNumber(row.acquisitionCostPerShare).Ok? &&
      ToNumber(row.purchaseDateFairMktValue).Ok? &&
      EnsureDefined(row.planType, "planType").Ok? && EnsureDefined(row.symbol, "symbol").Ok?
    ensures ParseEtradeGLRow(row).Ok? ==>
      var e := ParseEtradeGLRow(row).value;
      Ok(e.quantity) == ToNumber(QuantityCell(row)) &&
      Some(e.dateGranted) == ParseEtradeDate(row.grantDate.value) &&
      Some(e.dateAcquired) == ParseEtradeDate(row.dateAcquired.value) &&
      Some(e.dateSold) == ParseEtradeDate(row.dateSold.value) &&
      Ok(e.proceeds) == ToNumber(row.proceedsPerShare) &&
      Ok(e.adjustedCost) == ToNumber(row.adjustedCostBasisPerShare) &&
      Ok(e.acquisitionCost) == ToNumber(row.acquisitionCostPerShare) &&
      Ok(e.purchaseDateFairMktValue) == ToNumber(row.purchaseDateFairMktValue) &&
      e.planType == PlanTypeOf(row.planType.value) &&
      e.symbol == row.symbol.value &&
      (e.qualifiedIn == Us <==> row.qualifiedPlan == Some("Qualified"))
  {
  }

  /**
   * The row loop of parseEtradeGL, for a given row parser: row 0 is the
   * summary and is skipped, the other rows are mapped in order, and the first
   * row the parser refuses rejects the whole file.
   */
  method ParseRows<R, T, E>(rows: seq<R>, parseRow: R -> Result<T, E>) returns (r: Result<seq<T>, E>)
    ensures r.Ok? <==> forall i :: 1 <= i < |rows| ==> parseRow(rows[i]).Ok?
    ensures r.Ok? ==> |r.value| == if |rows| == 0 then 0 else |rows| - 1
    ensures r.Ok? ==> forall i :: 0 <= i < |r.value| ==> parseRow(rows[i + 1]) == Ok(r.value[i])
    ensures r.Err? ==> exists k :: 1 <= k < |rows| && parseRow(rows[k]) == Err(r.error) &&
                                  (forall i :: 1 <= i < k ==> parseRow(rows[i]).Ok?)
  {
    var data: seq<T> := [];
    var rowIdx := 1;
    while rowIdx < |rows|
      invariant 1 <= rowIdx <= if |rows| == 0 then 1 else |rows|
      invariant |data| == rowIdx - 1
      invariant forall i :: 0 <= i < |data| ==> parseRow(rows[i + 1]) == Ok(data[i])
      invariant forall i :: 1 <= i < rowIdx ==> parseRow(rows[i]).Ok?
    {
      var parsed := parseRow(rows[rowIdx]);
      if parsed.Err? {
        return Err(parsed.error);
      }
      data := data + [parsed.value];
      rowIdx := rowIdx + 1;
    }
    return Ok(data);
  }

  /** parseEtradeGL on the rows of the first worksheet. */
  method ParseEtradeGL(rows: seq<Row>) returns (r: Result<seq<GainAndLossEvent>, RowError>)
    ensures r.Ok? <==> forall i :: 1 <= i < |rows| ==> ParseEtradeGLRow(rows[i]).Ok?
    ensures r.Ok? ==> |r.value| == if |rows| == 0 then 0 else |rows| - 1
    ensures r.Ok? ==> forall i :: 0 <= i < |r.value| ==> ParseEtradeGLRow(rows[i + 1]) == Ok(r.value[i])
    ensures r.Err? ==> exists k :: 1 <= k < |rows| && ParseEtradeGLRow(rows[k]) == Err(r.error) &&
                                  (forall i :: 1 <= i < k ==> ParseEtradeGLRow(rows[i]).Ok?)
  {
    r := ParseRows(rows, ParseEtradeGLRow);
  }
}
