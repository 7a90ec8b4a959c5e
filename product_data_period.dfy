/** ApphudBase/Sources/ApphudBase/Public/ProductDataPeriod.swift: a subscription length as a
    calendar unit and a count, its length in days, and the early returns of `format`. */
module ProductPeriod {
  /** The `NSCalendar.Unit` values a period can carry; every other unit is `OtherUnit`. */
  datatype CalendarUnit = Day | WeekOfMonth | Month | Year | OtherUnit

  datatype ProductDataPeriod = ProductDataPeriod(unit: CalendarUnit, numberOfUnits: int)

  /** The named periods. */
  const Week := ProductDataPeriod(WeekOfMonth, 1)
  const OneMonth := ProductDataPeriod(Month, 1)
  const ThreeMonths := ProductDataPeriod(Month, 3)
  const SixMonths := ProductDataPeriod(Month, 6)
  const OneYear := ProductDataPeriod(Year, 1)

  /** Days in one unit: a week is 7, a month 30 and a year 365 days. */
  function DaysPerUnit(u: CalendarUnit): (d: nat)
    requires !u.OtherUnit?
    ensures d > 0
  {
    match u
    case Day => 1
    case WeekOfMonth => 7
    case Month => 30
    case Year => 365
  }

  /** `days`: the count times the unit's length; a period in any other unit counts as 1. */
  function Days(p: ProductDataPeriod): (d: int)
    ensures p.unit.OtherUnit? ==> d == 1
    ensures !p.unit.OtherUnit? ==> d == p.numberOfUnits * DaysPerUnit(p.unit)
  {
    match p.unit
    case Day => p.numberOfUnits * 1
    case WeekOfMonth => p.numberOfUnits * 7
    case Month => p.numberOfUnits * 30
    case Year => p.numberOfUnits * 365
    case OtherUnit => 1
  }

  /** The named periods last 7, 30, 90, 180 and 365 days. */
  lemma NamedPeriodDays()
    ensures Days(Week) == 7 && Days(OneMonth) == 30 && Days(ThreeMonths) == 90
    ensures Days(SixMonths) == 180 && Days(OneYear) == 365
  {
  }

  /** A longer count in the same known unit is a longer period, and a period of at least one
      unit has at least one day. */
  lemma DaysMonotone(p: ProductDataPeriod, q: ProductDataPeriod)
    requires p.unit == q.unit && !p.unit.OtherUnit? && p.numberOfUnits <= q.numberOfUnits
    ensures Days(p) <= Days(q)
    ensures p.numberOfUnits >= 1 ==> Days(p) >= p.numberOfUnits
  {
  }

  /** One week and seven days are the same length, as are twelve 30-day months and 360 days. */
  lemma SameLengthDifferentUnits()
    ensures Days(ProductDataPeriod(Day, 7)) == Days(Week)
    ensures Days(ProductDataPeriod(Month, 12)) == Days(ProductDataPeriod(Day, 360))
    ensures Days(ProductDataPeriod(Month, 12)) != Days(OneYear)
  {
  }

  /** The first step of `format`: seven days are shown as one week. */
  function Normalize(p: ProductDataPeriod): (q: ProductDataPeriod)
    ensures Days(q) == Days(p)
    ensures q.unit != Day || q.numberOfUnits != 7
    ensures (p.unit != Day || p.numberOfUnits != 7) ==> q == p
  {
    if p.unit == Day && p.numberOfUnits == 7 then Week else p
  }

  /** What `format` hands back: the bare unit word, the components passed on to
      `DateComponentsFormatter` (whose text is not modelled), or the `assertionFailure` of a
      period in an unexpected unit. */
  datatype FormatOutcome = BareWord(word: string) | Formatted(unit: CalendarUnit, count: int) | InvalidUnit

  function UnitWord(u: CalendarUnit): (w: string)
    requires !u.OtherUnit?
    ensures |w| >= 3
  {
    match u
    case Day => "day"
    case WeekOfMonth => "week"
    case Month => "month"
    case Year => "year"
  }

  /** The outcome of `format` on a period already normalised. */
  function FormatNormalized(q: ProductDataPeriod, omitOneUnit: bool): FormatOutcome {
    if q.unit.OtherUnit? then InvalidUnit
    else if omitOneUnit && q.numberOfUnits == 1 then BareWord(UnitWord(q.unit))
    else Formatted(q.unit, q.numberOfUnits)
  }

  /** `format(omitOneUnit:)`: the local unit and count are rewritten for seven days, then the
      unit's case either returns its bare word or sets the count on the date components. */
  method Format(p: ProductDataPeriod, omitOneUnit: bool) returns (r: FormatOutcome)
    ensures r == FormatNormalized(Normalize(p), omitOneUnit)
  {
    var unit := p.unit;
    var numberOfUnits := p.numberOfUnits;
    if unit == Day && numberOfUnits == 7 {
      unit := WeekOfMonth;
      numberOfUnits := 1;
    }
    match unit {
      case Day =>
        if omitOneUnit && numberOfUnits == 1 { return BareWord("day"); }
      case WeekOfMonth =>
        if omitOneUnit && numberOfUnits == 1 { return BareWord("week"); }
      case Month =>
        if omitOneUnit && numberOfUnits == 1 { return BareWord("month"); }
      case Year =>
        if omitOneUnit && numberOfUnits == 1 { return BareWord("year"); }
      case OtherUnit =>
        return InvalidUnit;
    }
    r := Formatted(unit, numberOfUnits);
  }

  /** The bare word comes back exactly when it is asked for and the (normalised) count is one;
      otherwise the formatter receives the normalised unit and count. */
  lemma FormatShortcutIff(p: ProductDataPeriod, omitOneUnit: bool)
    requires !p.unit.OtherUnit?
    ensures var q := Normalize(p);
      (FormatNormalized(q, omitOneUnit).BareWord? <==> (omitOneUnit && q.numberOfUnits == 1))
      && (FormatNormalized(q, omitOneUnit).BareWord? ==> FormatNormalized(q, omitOneUnit).word == UnitWord(q.unit))
      && (!FormatNormalized(q, omitOneUnit).BareWord? ==> FormatNormalized(q, omitOneUnit) == Formatted(q.unit, q.numberOfUnits))
  {
  }

  /** Seven days are shown as "week" when a count of one is omitted, and as one week
      otherwise; the named periods of one unit show their bare words. */
  lemma FormatExamples()
    ensures FormatNormalized(Normalize(ProductDataPeriod(Day, 7)), true) == BareWord("week")
    ensures FormatNormalized(Normalize(ProductDataPeriod(Day, 7)), false) == Formatted(WeekOfMonth, 1)
    ensures FormatNormalized(Normalize(OneMonth), true) == BareWord("month")
    ensures FormatNormalized(Normalize(OneYear), true) == BareWord("year")
    ensures FormatNormalized(Normalize(ThreeMonths), true) == Formatted(Month, 3)
    ensures FormatNormalized(Normalize(ProductDataPeriod(Day, 14)), true) == Formatted(Day, 14)
  {
  }
}
