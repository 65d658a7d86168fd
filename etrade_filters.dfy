/** The five plan and qualification predicates of lib/etrade/filters.ts. */
module EtradeFilters {
  import opened Wrappers
  import opened EtradeTypes
  import opened ParseEtradeGL

  function IsFrQualifiedSo(e: GainAndLossEvent): (r: bool)
    ensures r <==> e.planType == SO && e.qualifiedIn == Fr
  {
    Accepts(GLFilter(Some(SO), Some(Fr)), e)
  }

  function IsUsQualifiedSo(e: GainAndLossEvent): (r: bool)
    ensures r <==> e.planType == SO && e.qualifiedIn == Us
  {
    Accepts(GLFilter(Some(SO), Some(Us)), e)
  }

  /** ESPP events of either qualification. */
  function IsEspp(e: GainAndLossEvent): (r: bool)
    ensures r <==> e.planType == ESPP
  {
    Accepts(GLFilter(Some(ESPP), None), e)
  }

  function IsFrQualifiedRsu(e: GainAndLossEvent): (r: bool)
    ensures r <==> e.planType == RS && e.qualifiedIn == Fr
  {
    Accepts(GLFilter(Some(RS), Some(Fr)), e)
  }

  function IsUsQualifiedRsu(e: GainAndLossEvent): (r: bool)
    ensures r <==> e.planType == RS && e.qualifiedIn == Us
  {
    Accepts(GLFilter(Some(RS), Some(Us)), e)
  }

  /** Each predicate is the one createEtradeGLFilter makes of its filter record. */
  lemma FiltersAreCreated(e: GainAndLossEvent)
    ensures IsFrQualifiedSo(e) == CreateEtradeGLFilter(GLFilter(Some(SO), Some(Fr)))(e)
    ensures IsUsQualifiedSo(e) == CreateEtradeGLFilter(GLFilter(Some(SO), Some(Us)))(e)
    ensures IsEspp(e) == CreateEtradeGLFilter(GLFilter(Some(ESPP), None))(e)
    ensures IsFrQualifiedRsu(e) == CreateEtradeGLFilter(GLFilter(Some(RS), Some(Fr)))(e)
    ensures IsUsQualifiedRsu(e) == CreateEtradeGLFilter(GLFilter(Some(RS), Some(Us)))(e)
  {
  }

  /** How many of the five predicates accept e. */
  function MatchCount(e: GainAndLossEvent): nat
  {
    (if IsFrQualifiedSo(e) then 1 else 0) + (if IsUsQualifiedSo(e) then 1 else 0) +
    (if IsEspp(e) then 1 else 0) + (if IsFrQualifiedRsu(e) then 1 else 0) +
    (if IsUsQualifiedRsu(e) then 1 else 0)
  }

  /** Every ESPP, RS or SO event is accepted by exactly one predicate; others by none. */
  lemma ExactlyOneFilter(e: GainAndLossEvent)
    ensures !e.planType.OtherPlan? ==> MatchCount(e) == 1
    ensures e.planType.OtherPlan? ==> MatchCount(e) == 0
  {
  }
}
