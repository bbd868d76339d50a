/**
 * The two immutable value objects of the domain: Money (an amount in a
 * currency) and BillingCycle (a recurrence of `interval` units).
 */
module ValueObjects {
  import opened Wrappers
  import opened Errors
  import opened Time

  // ------------------------------------------------------------------
  // Money
  // ------------------------------------------------------------------

  datatype MoneyValue = MoneyValue(amount: real, currency: string)

  /** The values a Money can hold: construction refuses every other one. */
  type Money = m: MoneyValue | m.amount >= 0.0 && |m.currency| == 3
    witness MoneyValue(0.0, "USD")

  /** Money(amount, currency): the amount is checked first, then the currency code. */
  function NewMoney(amount: real, currency: string): (r: Result<Money, Error>)
    ensures r.Ok? <==> amount >= 0.0 && |currency| == 3
    ensures r.Ok? ==> r.value.amount == amount && r.value.currency == currency
    ensures amount < 0.0 ==> r == Err(NegativeAmount)
    ensures amount >= 0.0 && |currency| != 3 ==> r == Err(InvalidCurrency)
  {
    if amount < 0.0 then Err(NegativeAmount)
    else if |currency| != 3 then Err(InvalidCurrency)
    else Ok(MoneyValue(amount, currency))
  }

  /** Money.__add__: refuses two currencies, otherwise adds the amounts. */
  function Add(a: Money, b: Money): (r: Result<Money, Error>)
    ensures r.Err? <==> a.currency != b.currency
    ensures r.Err? ==> r.error == IncompatibleCurrency
    ensures r.Ok? ==> r.value.amount == a.amount + b.amount && r.value.currency == a.currency
  {
    if a.currency != b.currency then Err(IncompatibleCurrency)
    else NewMoney(a.amount + b.amount, a.currency)
  }

  /** Money.__mul__: scales the amount, keeps the currency; the result is validated like any Money. */
  function Times(m: Money, factor: real): (r: Result<Money, Error>)
    ensures r.Ok? <==> m.amount * factor >= 0.0
    ensures r.Ok? ==> r.value.amount == m.amount * factor && r.value.currency == m.currency
    ensures r.Err? ==> r.error == NegativeAmount
  {
    NewMoney(m.amount * factor, m.currency)
  }

  /** Every well-formed Money is accepted back by the constructor unchanged. */
  lemma NewMoneyRoundTrip(m: Money)
    ensures NewMoney(m.amount, m.currency) == Ok(m)
  {
  }

  /** Scaling by a non-negative factor never fails. */
  lemma TimesNonNegative(m: Money, factor: real)
    requires factor >= 0.0
    ensures Times(m, factor).Ok?
    ensures Times(m, factor).value.amount >= 0.0
  {
    assert m.amount * factor >= 0.0;
  }

  /** Addition of same-currency Money is commutative. */
  lemma AddCommutative(a: Money, b: Money)
    ensures Add(a, b).Ok? <==> Add(b, a).Ok?
    ensures Add(a, b).Ok? ==> Add(a, b) == Add(b, a)
  {
  }

  /** Zero in the same currency is a neutral element of addition. */
  lemma AddZero(a: Money)
    ensures Add(MoneyValue(0.0, a.currency), a) == Ok(a)
  {
  }

  // ------------------------------------------------------------------
  // BillingCycle
  // ------------------------------------------------------------------

  datatype CycleUnit = Days | Weeks | Months | Years

  /** The unit's spelling in the source ("days", "weeks", "months", "years"). */
  function UnitName(u: CycleUnit): string
  {
    match u
    case Days => "days"
    case Weeks => "weeks"
    case Months => "months"
    case Years => "years"
  }

  /** Recognises exactly the four unit spellings. */
  function ParseUnit(s: string): (r: Option<CycleUnit>)
    ensures r.Some? ==> UnitName(r.value) == s
    ensures r.None? ==> forall u :: UnitName(u) != s
  {
    if s == "days" then Some(Days)
    else if s == "weeks" then Some(Weeks)
    else if s == "months" then Some(Months)
    else if s == "years" then Some(Years)
    else None
  }

  /** Parsing a unit's spelling gives back that unit. */
  lemma ParseUnitName(u: CycleUnit)
    ensures ParseUnit(UnitName(u)) == Some(u)
  {
  }

  datatype CycleValue = CycleValue(interval: int, unit: CycleUnit)

  /** The values a BillingCycle can hold: a positive interval of a known unit. */
  type BillingCycle = c: CycleValue | c.interval > 0 witness CycleValue(1, Months)

  /** BillingCycle(interval, unit): the interval is checked first, then the unit. */
  function NewBillingCycle(interval: int, unit: string): (r: Result<BillingCycle, Error>)
    ensures r.Ok? <==> interval > 0 && ParseUnit(unit).Some?
    ensures interval <= 0 ==> r == Err(InvalidInterval)
    ensures interval > 0 && ParseUnit(unit).None? ==> r == Err(InvalidUnit)
    ensures r.Ok? ==> r.value.interval == interval && UnitName(r.value.unit) == unit
  {
    if interval <= 0 then Err(InvalidInterval)
    else match ParseUnit(unit)
      case None => Err(InvalidUnit)
      case Some(u) => Ok(CycleValue(interval, u))
  }

  /** How many days one unit stands for: months and years are fixed 30- and 365-day blocks. */
  function DaysPerUnit(u: CycleUnit): nat
  {
    match u
    case Days => 1
    case Weeks => 7
    case Months => 30
    case Years => 365
  }

  /** BillingCycle.calculate_next_date: `from` plus interval units, each a whole number of days. */
  function NextDate(c: BillingCycle, from: Instant): (r: Instant)
    ensures r > from
    ensures DaysBetween(r, from) == c.interval * DaysPerUnit(c.unit)
    ensures r == AddDays(from, c.interval * DaysPerUnit(c.unit))
  {
    var next := match c.unit
      case Days => AddDays(from, c.interval)
      case Weeks => AddDays(from, 7 * c.interval)
      case Months => AddDays(from, c.interval * 30)
      case Years => AddDays(from, c.interval * 365);
    DaysBetweenAddDays(from, c.interval * DaysPerUnit(c.unit));
    next
  }

  /** BillingCycle.to_monthly_equivalent: how many times per month the cycle bills. */
  function MonthlyMultiplier(c: BillingCycle): (r: real)
    ensures r > 0.0
  {
    var n := c.interval as real;
    match c.unit
    case Days => 30.0 / n
    case Weeks => 4.33 / n
    case Months => 1.0 / n
    case Years => 1.0 / (n * 12.0)
  }

  /** BillingCycle.to_annual_equivalent: the monthly multiplier times twelve. */
  function AnnualMultiplier(c: BillingCycle): (r: real)
    ensures r > 0.0
  {
    MonthlyMultiplier(c) * 12.0
  }

  /**
   * The multipliers normalise a cycle onto months and years: an n-month cycle
   * bills 1/n times a month, an n-year cycle 1/n times a year, and the annual
   * figure is always twelve monthly ones.
   */
  lemma MultiplierNormalisation(c: BillingCycle)
    ensures AnnualMultiplier(c) == 12.0 * MonthlyMultiplier(c)
    ensures c.unit == Months ==> MonthlyMultiplier(c) * (c.interval as real) == 1.0
    ensures c.unit == Years ==> AnnualMultiplier(c) * (c.interval as real) == 1.0
    ensures c.unit == Days ==> MonthlyMultiplier(c) * (c.interval as real) == 30.0
    ensures c.unit == Weeks ==> MonthlyMultiplier(c) * (c.interval as real) == 4.33
  {
  }
}
