/**
 * The French tax return the rules fill in, the taxable event each sale
 * becomes, and the Form 2074 "Page 510" builder shared by every rule
 * (lib/taxes/taxes-rules-fr.ts).
 */
module FrTaxReturn {
  import opened Wrappers
  import opened Dates
  import opened EtradeTypes
  import opened FormatNumber
  import opened TaxableEventFr

  /** The boxes of the return an explanation can refer to. */
  datatype Box = Box1TT | Box1TZ | Box1WZ | Box1AJ | Box3VG

  /** The five rule functions, in the order applyFrTaxes runs them. */
  datatype Rule = FrQualifiedSo | FrQualifiedRsu | Espp | NonFrQualifiedSo | NonFrQualifiedRsu

  /** What an explanation says, standing for its one-line description. */
  datatype Reason =
    | QualifiedSoAcquisitionGains
    | RsuGainsBelowThreshold
    | RsuDiscount
    | RsuGainsAboveThreshold
    | EsppAcquisitionGainsElsewhere
    | NonQualifiedSoAcquisitionGainsElsewhere
    | NonQualifiedRsuAcquisitionGainsElsewhere
    | CapitalGains(rule: Rule)

  datatype Explanation = Explanation(box: Box, reason: Reason, taxableEvents: seq<TaxableEventFr>)

  /** One Form 2074 page 510 declaration; cell 519 is a label and 512 the sale day. */
  datatype Page510 = Page510(
    designation: string,     // 511
    saleDate: Day,           // 512
    cell514: real,
    cell515: real,
    cell516: real,
    cell517: real,
    cell518: real,
    cell520: real,
    cell521: real,
    cell522: real,
    cell523: real,
    cell524: real,
    cell525: bool,
    cell526: real)

  datatype GainsAndLosses = GainsAndLosses(gains: real, losses: real)

  datatype FrTaxes = FrTaxes(
    explanations: seq<Explanation>,
    box1TT: real,
    box1TZ: real,
    box1WZ: real,
    box1AJ: real,
    box3VG: real,
    box3VH: real,
    page510: seq<Page510>,
    page900: GainsAndLosses,    // "Page 900" cell 903, never filled in
    page11: GainsAndLosses)     // "page 11" cell 1133, never filled in

  /** getEmptyTaxes. */
  function GetEmptyTaxes(): FrTaxes
  {
    FrTaxes([], 0.0, 0.0, 0.0, 0.0, 0.0, 0.0, [], GainsAndLosses(0.0, 0.0), GainsAndLosses(0.0, 0.0))
  }

  /** Sum of cell 524 over pages, added up in order. */
  function Sum524(pages: seq<Page510>): real
  {
    if |pages| == 0 then 0.0 else Sum524(pages[..|pages| - 1]) + pages[|pages| - 1].cell524
  }

  lemma {:induction false} Sum524Append(a: seq<Page510>, b: seq<Page510>)
    ensures Sum524(a + b) == Sum524(a) + Sum524(b)
    decreases |b|
  {
    if |b| > 0 {
      assert (a + b)[..|a + b| - 1] == a + b[..|b| - 1];
      Sum524Append(a, b[..|b| - 1]);
    } else {
      assert a + b == a;
    }
  }

  /** The two aggregate identities of the return: 3VG is the sum of all 524 lines, and 1TZ equals 1WZ. */
  predicate Balanced(t: FrTaxes)
  {
    t.box3VG == Sum524(t.page510) && t.box1TZ == t.box1WZ
  }

  /** The empty return is balanced. */
  lemma EmptyTaxesBalanced()
    ensures Balanced(GetEmptyTaxes())
    ensures GetEmptyTaxes().box1TT == 0.0 && GetEmptyTaxes().box1TZ == 0.0 && |GetEmptyTaxes().page510| == 0
  {
  }

  /** A sale with its rates, price on the acquisition day and French fraction. */
  datatype EventWithRates = EventWithRates(
    event: GainAndLossEvent,
    rateAcquired: real,
    rateSold: real,
    symbolPriceAcquired: real,
    fractionFrIncome: real,
    dateSymbolPriceAcquired: Option<Day>)

  /** The rates an event is converted with are usable divisors. */
  predicate HasRates(e: EventWithRates)
  {
    e.rateAcquired != 0.0 && e.rateSold != 0.0
  }

  /** Acquisition value, its rate and the acquisition cost a rule chose for a sale. */
  datatype AcquisitionChoice = AcquisitionChoice(valueUsd: real, valueRate: real, costUsd: real, explain: Valuation)

  /** Form 2074 uses 6 digits for per-share prices. */
  function Floor6(v: real): (r: real)
    ensures r <= v < r + Step(6)
  {
    FloorNumber(v, 6)
  }

  /** getFrTaxableEventFromGainsAndLossEvent. */
  function GetFrTaxableEventFromGainsAndLossEvent(e: EventWithRates, c: AcquisitionChoice): TaxableEventFr
    requires HasRates(e) && c.valueRate != 0.0
  {
    var sellPriceEur := Floor6(e.event.proceeds / e.rateSold);
    var acquisitionValueEur := Floor6(c.valueUsd / c.valueRate);
    var acquisitionCostEur := Floor6(c.costUsd / e.rateAcquired);
    var symbolPriceEur := Floor6(e.symbolPriceAcquired / e.rateAcquired);
    TaxableEventFr(
      e.event.symbol, e.event.planType, Fr, Sell, e.event.dateSold, e.event.quantity,
      Some(SellLeg(e.event.proceeds, e.rateSold, sellPriceEur, e.event.dateSold)),
      Acquisition(c.valueUsd, acquisitionValueEur, c.costUsd, acquisitionCostEur, e.symbolPriceAcquired,
        symbolPriceEur, e.dateSymbolPriceAcquired, e.rateAcquired, e.event.dateAcquired, c.explain),
      CapitalGain(sellPriceEur - acquisitionValueEur, (sellPriceEur - acquisitionValueEur) * e.event.quantity),
      AcquisitionGain((acquisitionValueEur - acquisitionCostEur) * e.fractionFrIncome,
        (acquisitionValueEur - acquisitionCostEur) * e.fractionFrIncome * e.event.quantity,
        e.fractionFrIncome))
  }

  /**
   * Every EUR figure of a taxable event is the USD figure over its rate,
   * floored to 6 digits; the capital gain is sale less acquisition value,
   * the acquisition gain acquisition value less cost, scaled by the French
   * fraction, both times the quantity.
   */
  lemma TaxableEventFigures(e: EventWithRates, c: AcquisitionChoice)
    requires HasRates(e) && c.valueRate != 0.0
    ensures var t := GetFrTaxableEventFromGainsAndLossEvent(e, c);
      && t.sell == Some(SellLeg(e.event.proceeds, e.rateSold, Floor6(e.event.proceeds / e.rateSold), e.event.dateSold))
      && t.acquisition.valueEur == Floor6(c.valueUsd / c.valueRate)
      && t.acquisition.costEur == Floor6(c.costUsd / e.rateAcquired)
      && t.acquisition.symbolPriceEur == Floor6(e.symbolPriceAcquired / e.rateAcquired)
      && t.acquisition.valueUsd == c.valueUsd && t.acquisition.costUsd == c.costUsd
      && t.acquisition.description == c.explain
      && t.capitalGain.perShare == t.sell.value.eur - t.acquisition.valueEur
      && t.capitalGain.total == t.capitalGain.perShare * e.event.quantity
      && t.acquisitionGain.perShare == (t.acquisition.valueEur - t.acquisition.costEur) * e.fractionFrIncome
      && t.acquisitionGain.total == t.acquisitionGain.perShare * e.event.quantity
      && t.qualifiedIn == Fr && t.eventType == Sell && t.quantity == e.event.quantity
      && t.date == e.event.dateSold && t.symbol == e.event.symbol && t.planType == e.event.planType
  {
  }

  /**
   * With the whole income French, acquisition gain and capital gain add up to
   * the gain from acquisition cost to sale price.
   */
  lemma GainsAddUp(e: EventWithRates, c: AcquisitionChoice)
    requires HasRates(e) && c.valueRate != 0.0 && e.fractionFrIncome == 1.0
    ensures var t := GetFrTaxableEventFromGainsAndLossEvent(e, c);
      t.capitalGain.total + t.acquisitionGain.total == (t.sell.value.eur - t.acquisition.costEur) * t.quantity
  {
    TaxableEventFigures(e, c);
    var t := GetFrTaxableEventFromGainsAndLossEvent(e, c);
    var q := t.quantity;
    assert t.capitalGain.total + t.acquisitionGain.total
        == (t.sell.value.eur - t.acquisition.valueEur) * q + (t.acquisition.valueEur - t.acquisition.costEur) * 1.0 * q;
  }

  /** The plan name written in cell 511. */
  function PlanDescription(p: PlanType): string
  {
    if p == SO then "Stock Options" else if p == RS then "RSU" else "ESPP"
  }

  /** A sale gets a page when it has a sale leg and a non-zero capital gain. */
  predicate Declared(t: TaxableEventFr)
  {
    t.sell.Some? && t.capitalGain.total != 0.0
  }

  /** A price times a quantity, rounded to the nearest whole euro (Math.round). */
  function WholeEuros(price: real, quantity: real): (r: real)
  {
    RoundNumber(price * quantity, 0)
  }

  lemma WholeEurosBounds(price: real, quantity: real)
    ensures var r := WholeEuros(price, quantity);
      price * quantity - 0.5 < r <= price * quantity + 0.5 && OnGrid(r, 0)
  {
    assert Step(0) == 1.0;
  }

  /** Whole shares: the quantity floored to 0 digits. */
  function WholeShares(quantity: real): (r: real)
    ensures r <= quantity < r + 1.0 && OnGrid(r, 0)
  {
    assert Step(0) == 1.0;
    FloorNumber(quantity, 0)
  }

  /** Form 2074 asks for the acquisition price in cents, rounded up. */
  function Cents(v: real): (r: real)
    ensures v <= r < v + Step(2) && OnGrid(r, 2)
  {
    CeilNumber(v, 2)
  }

  /**
   * The page 510 of one sale: sale price floored to 6 digits, whole shares,
   * acquisition value ceiled to cents, whole-euro totals, and the gain 524 as
   * sale total less acquisition total.
   */
  function PageOf(t: TaxableEventFr): (p: Page510)
    requires t.sell.Some?
  {
    var quantity := WholeShares(t.quantity);
    var cell514 := Floor6(t.sell.value.eur);
    var cell516 := WholeEuros(cell514, quantity);
    var cell520 := Cents(t.acquisition.valueEur);
    var cell521 := WholeEuros(cell520, quantity);
    Page510(t.symbol + " (" + PlanDescription(t.planType) + ")", t.sell.value.date,
      cell514, quantity, cell516, 0.0, cell516, cell520, cell521, 0.0, cell521, cell516 - cell521, false, 0.0)
  }

  /**
   * What the cells of a page hold: the rounded prices and quantity, the
   * whole-euro totals (bounded by WholeEurosBounds), the copies, the gain
   * and the zeros.
   */
  lemma PageFigures(t: TaxableEventFr)
    requires t.sell.Some?
    ensures var p := PageOf(t);
      && p.cell514 <= t.sell.value.eur < p.cell514 + Step(6)
      && p.cell515 <= t.quantity < p.cell515 + 1.0 && OnGrid(p.cell515, 0)
      && t.acquisition.valueEur <= p.cell520 < t.acquisition.valueEur + Step(2) && OnGrid(p.cell520, 2)
      && p.cell516 == WholeEuros(p.cell514, p.cell515) && p.cell521 == WholeEuros(p.cell520, p.cell515)
      && p.cell518 == p.cell516 && p.cell523 == p.cell521 && p.cell524 == p.cell518 - p.cell523
      && p.cell517 == 0.0 && p.cell522 == 0.0 && p.cell526 == 0.0 && !p.cell525
      && p.designation == t.symbol + " (" + PlanDescription(t.planType) + ")"
      && p.saleDate == t.sell.value.date
  {
  }

  /** The sale after the builder overwrote its capital gain with the page's figures. */
  function Reconcile(t: TaxableEventFr): TaxableEventFr
    requires t.sell.Some?
  {
    var page := PageOf(t);
    t.(capitalGain := CapitalGain(page.cell514 - page.cell520, page.cell524))
  }

  /** The pages of the declared sales, in order. */
  function NewPages(events: seq<TaxableEventFr>): (pages: seq<Page510>)
    ensures |pages| <= |events|
  {
    if |events| == 0 then []
    else
      var last := events[|events| - 1];
      NewPages(events[..|events| - 1]) + (if Declared(last) then [PageOf(last)] else [])
  }

  /** The builder keeps the order of the sales: the pages of a + b are a's pages followed by b's. */
  lemma {:induction false} NewPagesInOrder(a: seq<TaxableEventFr>, b: seq<TaxableEventFr>)
    ensures NewPages(a + b) == NewPages(a) + NewPages(b)
  {
    if |b| == 0 {
      assert a + b == a;
    } else {
      var init := b[..|b| - 1];
      assert (a + b)[..|a + b| - 1] == a + init;
      assert (a + b)[|a + b| - 1] == b[|b| - 1];
      NewPagesInOrder(a, init);
    }
  }

  /** A single sale gives its page exactly when it is declared. */
  lemma NewPagesOne(t: TaxableEventFr)
    ensures NewPages([t]) == if Declared(t) then [PageOf(t)] else []
  {
    assert [t][..0] == [];
  }

  /** The sales with the declared ones reconciled with their pages. */
  function ReconciledEvents(events: seq<TaxableEventFr>): (r: seq<TaxableEventFr>)
    ensures |r| == |events|
    ensures forall i :: 0 <= i < |events| ==> r[i] == if Declared(events[i]) then Reconcile(events[i]) else events[i]
  {
    if |events| == 0 then []
    else
      var last := events[|events| - 1];
      ReconciledEvents(events[..|events| - 1]) + [if Declared(last) then Reconcile(last) else last]
  }

  predicate NoCapitalGain(events: seq<TaxableEventFr>)
  {
    forall i :: 0 <= i < |events| ==> events[i].capitalGain.total == 0.0
  }

  /** What getFrTaxesCapitalGain returns, and the event list it leaves behind. */
  function CapitalGainTaxes(rule: Rule, events: seq<TaxableEventFr>, taxes: FrTaxes): (r: (FrTaxes, seq<TaxableEventFr>))
    ensures taxes.explanations <= r.0.explanations
  {
    if |events| == 0 || NoCapitalGain(events) then (taxes, events)
    else
      var reconciled := ReconciledEvents(events);
      var pages := NewPages(events);
      (taxes.(box3VG := taxes.box3VG + Sum524(pages),
              explanations := taxes.explanations + [Explanation(Box3VG, CapitalGains(rule), reconciled)],
              page510 := taxes.page510 + pages),
       reconciled)
  }

  /**
   * getFrTaxesCapitalGain: one page per declared sale, the sales' capital
   * gains overwritten with the page figures, the pages' 524 added to 3VG.
   */
  method GetFrTaxesCapitalGain(rule: Rule, taxableEvents: seq<TaxableEventFr>, taxes: FrTaxes)
    returns (r: FrTaxes, events: seq<TaxableEventFr>)
    ensures (r, events) == CapitalGainTaxes(rule, taxableEvents, taxes)
  {
    if |taxableEvents| == 0 {
      return taxes, taxableEvents;
    }
    if forall i :: 0 <= i < |taxableEvents| ==> taxableEvents[i].capitalGain.total == 0.0 {
      return taxes, taxableEvents;
    }
    var capitalGainEur, newPages;
    newPages, capitalGainEur, events := BuildPages(taxableEvents);
    r := taxes.(box3VG := taxes.box3VG + capitalGainEur,
                explanations := taxes.explanations + [Explanation(Box3VG, CapitalGains(rule), events)],
                page510 := taxes.page510 + newPages);
  }

  /** The builder's loop: a page for each declared sale, its 524 summed, the sale reconciled in place. */
  method BuildPages(taxableEvents: seq<TaxableEventFr>)
    returns (newPages: seq<Page510>, capitalGainEur: real, events: seq<TaxableEventFr>)
    ensures newPages == NewPages(taxableEvents)
    ensures capitalGainEur == Sum524(newPages)
    ensures events == ReconciledEvents(taxableEvents)
  {
    capitalGainEur := 0.0;
    newPages := [];
    events := taxableEvents;
    for i := 0 to |taxableEvents|
      invariant newPages == NewPages(taxableEvents[..i])
      invariant capitalGainEur == Sum524(newPages)
      invariant events == ReconciledEvents(taxableEvents[..i]) + taxableEvents[i..]
    {
      var taxableEvent := taxableEvents[i];
      if taxableEvent.sell.None? || taxableEvent.capitalGain.total == 0.0 {
        BuilderSkips(taxableEvents, i);
        continue;
      }
      BuilderAddsPage(taxableEvents, i);
      var newPage := PageOf(taxableEvent);
      events := events[i := Reconcile(taxableEvent)];
      capitalGainEur := capitalGainEur + newPage.cell524;
      newPages := newPages + [newPage];
    }
    assert taxableEvents[..|taxableEvents|] == taxableEvents;
    assert taxableEvents[|taxableEvents|..] == [];
  }

  /** The builder's specification over a sale without a page. */
  lemma BuilderSkips(events: seq<TaxableEventFr>, i: nat)
    requires i < |events| && !Declared(events[i])
    ensures NewPages(events[..i + 1]) == NewPages(events[..i])
    ensures ReconciledEvents(events[..i + 1]) + events[i + 1..] == ReconciledEvents(events[..i]) + events[i..]
  {
    assert events[..i + 1][..i] == events[..i];
    assert NewPages(events[..i]) + [] == NewPages(events[..i]);
    assert [events[i]] + events[i + 1..] == events[i..];
  }

  /** The builder's specification over a sale that gets a page. */
  lemma BuilderAddsPage(events: seq<TaxableEventFr>, i: nat)
    requires i < |events| && Declared(events[i])
    ensures NewPages(events[..i + 1]) == NewPages(events[..i]) + [PageOf(events[i])]
    ensures Sum524(NewPages(events[..i]) + [PageOf(events[i])]) == Sum524(NewPages(events[..i])) + PageOf(events[i]).cell524
    ensures ReconciledEvents(events[..i + 1]) + events[i + 1..]
         == (ReconciledEvents(events[..i]) + events[i..])[i := Reconcile(events[i])]
  {
    var pages := NewPages(events[..i]);
    assert events[..i + 1][..i] == events[..i];
    assert (pages + [PageOf(events[i])])[..|pages|] == pages;
  }

  lemma {:induction false} NoGainNoPages(events: seq<TaxableEventFr>)
    requires NoCapitalGain(events)
    ensures NewPages(events) == []
  {
    if |events| > 0 {
      NoGainNoPages(events[..|events| - 1]);
    }
  }

  /**
   * Each builder call appends exactly its new pages and adds exactly their
   * 524 to 3VG, touches no other box, and adds at most one explanation.
   */
  lemma CapitalGainAddsPages(rule: Rule, events: seq<TaxableEventFr>, taxes: FrTaxes)
    ensures var (r, _) := CapitalGainTaxes(rule, events, taxes);
      r.page510 == taxes.page510 + NewPages(events) &&
      r.box3VG == taxes.box3VG + Sum524(NewPages(events)) &&
      r.box1TT == taxes.box1TT && r.box1TZ == taxes.box1TZ && r.box1WZ == taxes.box1WZ &&
      r.box1AJ == taxes.box1AJ && r.box3VH == taxes.box3VH &&
      r.page900 == taxes.page900 && r.page11 == taxes.page11 &&
      taxes.explanations <= r.explanations && |r.explanations| <= |taxes.explanations| + 1
  {
    if |events| == 0 || NoCapitalGain(events) {
      if |events| > 0 {
        NoGainNoPages(events);
      }
      assert taxes.page510 + [] == taxes.page510;
    }
  }

  /** The builder keeps the return balanced. */
  lemma CapitalGainKeepsBalance(rule: Rule, events: seq<TaxableEventFr>, taxes: FrTaxes)
    requires Balanced(taxes)
    ensures Balanced(CapitalGainTaxes(rule, events, taxes).0)
  {
    CapitalGainAddsPages(rule, events, taxes);
    Sum524Append(taxes.page510, NewPages(events));
  }

  /** The builder changes nothing when there are no sales or no capital gain. */
  lemma CapitalGainNoOp(rule: Rule, events: seq<TaxableEventFr>, taxes: FrTaxes)
    requires |events| == 0 || NoCapitalGain(events)
    ensures CapitalGainTaxes(rule, events, taxes) == (taxes, events)
  {
  }
}
