/** The records of the finance tracker: streams (accounts), transactions,
    recurrence rules, automations, tags, the settings record and cached
    exchange rates, plus the projected-transaction shape the projection
    engine emits.

    Conventions:
    - amounts and rates are reals;
    - `applicabilityDate`, recurrence dates and the automation dates whose
      calendar fields are read are `Calendar.Date`s;
    - wall-clock timestamps that are only stored or ordered (`createdAt`,
      `archivedAt`, `updatedAt`, `fetchedAt`) are integers (milliseconds);
    - an optional field is an `Option`; JavaScript truthiness of an optional
      string ("present and not empty") is `Truthy`. */
module Domain {
  import opened Calendar

  datatype Option<T> = None | Some(value: T)

  /** The outcome of an operation that may throw: `Err` carries the message. */
  datatype Result<T> = Ok(value: T) | Err(message: string)

  /** `if (s)` on an optional string. */
  predicate Truthy(s: Option<string>) {
    s.Some? && s.value != ""
  }

  /** `s || fallback` on an optional string. */
  function OrElse(s: Option<string>, fallback: string): string {
    if Truthy(s) then s.value else fallback
  }

  datatype TxType = Income | Expense

  datatype Frequency = Daily | Weekly | Monthly | Yearly | Custom

  /** `installment` is written by the automation wizard although the record
      type lists only the other four; it is kept so the wizard can be modelled. */
  datatype AutomationType = Salary | Transfer | SavingCircle | CcPayment | Installment

  datatype ScheduleFrequency = ScheduleMonthly | ScheduleWeekly | ScheduleManual

  /** An account.  `isCreditCard` is read by the home screen although the
      record type does not declare it, so it is an optional flag here. */
  datatype Stream = Stream(
    id: string,
    name: string,
    icon: string,
    baseCurrency: string,
    creditLimit: Option<real>,
    currentUsage: Option<real>,
    isCreditCard: Option<bool>,
    createdAt: int,
    archivedAt: Option<int>)

  datatype Transaction = Transaction(
    id: string,
    streamId: string,
    amount: real,
    currency: string,
    applicabilityDate: Date,
    createdAt: int,
    kind: TxType,
    tags: seq<string>,
    recurrenceId: Option<string>,
    description: Option<string>)

  /** A repeating transaction rule.  `dayOfMonth` only matters for monthly
      rules, `customIntervalDays` only for custom ones. */
  datatype Recurrence = Recurrence(
    id: string,
    streamId: string,
    amount: real,
    frequency: Frequency,
    customIntervalDays: Option<int>,
    dayOfMonth: Option<int>,
    startDate: Date,
    endDate: Option<Date>,
    kind: TxType,
    description: Option<string>,
    tags: seq<string>)

  /** `day` is `None` when it is absent or not a number (NaN behaves like an
      absent day everywhere it is read). */
  datatype Schedule = Schedule(frequency: ScheduleFrequency, day: Option<int>)

  datatype Automation = Automation(
    id: string,
    name: string,
    kind: AutomationType,
    amount: real,
    currency: Option<string>,
    sourceStreamId: Option<string>,
    targetStreamId: Option<string>,
    schedule: Schedule,
    isActive: bool,
    createdAt: Date,
    lastRunAt: Option<Date>)

  datatype Tag = Tag(id: string, name: string, createdAt: int)

  datatype UserSettings = UserSettings(
    id: string,
    name: string,
    primaryCurrency: string,
    isFirstLaunch: bool,
    createdAt: int,
    updatedAt: int)

  /** A cached rate; `date` is the `YYYY-MM-DD` text it was fetched for and
      `id` is `FROM_TO_DATE`. */
  datatype ExchangeRateCache = ExchangeRateCache(
    id: string,
    fromCurrency: string,
    toCurrency: string,
    rate: real,
    date: string,
    fetchedAt: int)

  /** A transaction the projection engine predicts: a transaction without id
      and createdAt, flagged as projected, stamped with the projection day. */
  datatype ProjectedTransaction = ProjectedTransaction(
    streamId: string,
    amount: real,
    currency: string,
    applicabilityDate: Date,
    kind: TxType,
    tags: seq<string>,
    recurrenceId: Option<string>,
    description: Option<string>,
    isProjected: bool,
    projectionDate: Date)

  /** The currency codes the application offers (USD, EGP, SAR, EUR). */
  const CommonCurrencies: seq<string> := ["USD", "EGP", "SAR", "EUR"]
}
