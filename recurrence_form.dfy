/** The recurrence form: the amount must be positive and a custom rule needs
    a positive interval; the saved rule carries the interval only when it is
    custom and the day of the month only when it is monthly. */
module RecurrenceForm {
  import opened Calendar
  import opened Domain
  import opened Text
  import Projections

  /** The form's fields; `None` is an empty number input. */
  datatype Fields = Fields(
    kind: TxType,
    amount: Option<real>,
    streamId: string,
    frequency: Frequency,
    customIntervalDays: Option<int>,
    dayOfMonth: Option<int>,
    startDate: Date,
    endDate: Option<Date>,
    description: string)

  /** The rule the form hands to the recurrence store. */
  datatype RecurrenceData = RecurrenceData(
    kind: TxType,
    amount: real,
    streamId: string,
    frequency: Frequency,
    customIntervalDays: Option<int>,
    dayOfMonth: Option<int>,
    startDate: Date,
    endDate: Option<Date>,
    description: Option<string>)

  datatype Submission =
    | Rejected(message: string)
    | UpdateRecurrence(id: string, data: RecurrenceData)
    | CreateRecurrence(data: RecurrenceData, tags: seq<string>)

  /** The fields the form opens with: those of `initial`, or a blank
      monthly expense on `today` for the first stream. */
  function Opened(initial: Option<Recurrence>, streams: seq<Stream>, today: Date): Fields {
    match initial
    case Some(r) =>
      Fields(r.kind, Some(r.amount),
        if r.streamId != "" then r.streamId else if |streams| > 0 then streams[0].id else "",
        r.frequency, r.customIntervalDays, r.dayOfMonth, r.startDate, r.endDate, OrElse(r.description, ""))
    case None =>
      Fields(Expense, None, if |streams| > 0 then streams[0].id else "", Monthly, None, None, today, None, "")
  }

  /** The rule built from valid fields. */
  function Data(f: Fields): (d: RecurrenceData)
    requires f.amount.Some?
    ensures d.amount == f.amount.value && d.kind == f.kind && d.streamId == f.streamId && d.frequency == f.frequency
    ensures d.startDate == f.startDate && d.endDate == f.endDate
    ensures d.customIntervalDays.Some? <==> f.frequency == Custom && f.customIntervalDays.Some?
    ensures d.dayOfMonth.Some? <==> f.frequency == Monthly && f.dayOfMonth.Some?
    ensures d.customIntervalDays.Some? ==> d.customIntervalDays == f.customIntervalDays
    ensures d.dayOfMonth.Some? ==> d.dayOfMonth == f.dayOfMonth
    ensures d.description == TrimOrAbsent(f.description)
  {
    RecurrenceData(
      f.kind,
      f.amount.value,
      f.streamId,
      f.frequency,
      if f.frequency == Custom then f.customIntervalDays else None,
      if f.frequency == Monthly && f.dayOfMonth.Some? then f.dayOfMonth else None,
      f.startDate,
      f.endDate,
      TrimOrAbsent(f.description))
  }

  /** `handleSubmit`: the amount check, then the interval check of a custom
      rule, then an update of the rule being edited (when it has an id) or a
      create with no tags. */
  function Submit(f: Fields, initial: Option<Recurrence>): (s: Submission)
    ensures s.Rejected? <==> (f.amount.None? || f.amount.value <= 0.0 ||
                              (f.frequency == Custom && (f.customIntervalDays.None? || f.customIntervalDays.value <= 0)))
    ensures s.Rejected? ==>
              s.message == (if f.amount.None? || f.amount.value <= 0.0 then "Please enter a valid amount"
                            else "Please enter a valid custom interval")
    ensures s.UpdateRecurrence? <==> !s.Rejected? && initial.Some? && initial.value.id != ""
    ensures s.UpdateRecurrence? ==> s.id == initial.value.id && s.data == Data(f)
    ensures s.CreateRecurrence? ==> s.data == Data(f) && s.tags == []
  {
    if f.amount.None? || f.amount.value <= 0.0 then Rejected("Please enter a valid amount")
    else if f.frequency == Custom && (f.customIntervalDays.None? || f.customIntervalDays.value <= 0) then
      Rejected("Please enter a valid custom interval")
    else if initial.Some? && initial.value.id != "" then UpdateRecurrence(initial.value.id, Data(f))
    else CreateRecurrence(Data(f), [])
  }

  /** The stored rule once the store has given it an id and tags. */
  function Stored(d: RecurrenceData, id: string, tags: seq<string>): Recurrence {
    Recurrence(id, d.streamId, d.amount, d.frequency, d.customIntervalDays, d.dayOfMonth,
      d.startDate, d.endDate, d.kind, d.description, tags)
  }

  /** Every rule the form saves is one the projection engine expands with
      a positive amount and a positive step: a custom rule steps by exactly
      the interval entered, and a monthly rule keeps its day of the month
      when one was entered. */
  lemma SavedRuleProjects(f: Fields, initial: Option<Recurrence>, id: string, tags: seq<string>)
    requires !Submit(f, initial).Rejected?
    ensures var r := Stored(Submit(f, initial).data, id, tags);
      Projections.WellFormed(r) && r.amount > 0.0 &&
      (r.frequency == Custom ==> Projections.CustomStep(r) == f.customIntervalDays.value > 0) &&
      (Projections.HasDayOfMonth(r) <==> f.frequency == Monthly && f.dayOfMonth.Some? && f.dayOfMonth.value > 0)
  {
  }

  /** Opening a valid stored rule and saving it unchanged updates it with
      the same rule, up to the trimming of its description; an interval or
      day of the month its frequency does not use is dropped. */
  lemma EditRoundTrip(r: Recurrence, streams: seq<Stream>, today: Date)
    requires r.id != "" && r.streamId != "" && r.amount > 0.0
    requires r.frequency == Custom ==> r.customIntervalDays.Some? && r.customIntervalDays.value > 0
    ensures var s := Submit(Opened(Some(r), streams, today), Some(r));
      s.UpdateRecurrence? && s.id == r.id &&
      Stored(s.data, r.id, r.tags) ==
        r.(customIntervalDays := if r.frequency == Custom then r.customIntervalDays else None,
           dayOfMonth := if r.frequency == Monthly then r.dayOfMonth else None,
           description := TrimOrAbsent(OrElse(r.description, "")))
  {
  }
}
