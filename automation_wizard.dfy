/** The four-step automation wizard: step 1 picks the type, name and amount,
    step 2 the stream(s), step 3 the schedule, step 4 reviews and saves.
    The form's numeric inputs are `Option`s (`None` is the empty input, the
    only text a number input hands over that does not parse), its stream
    pickers are strings (`""` is "none chosen"). */
module AutomationWizard {
  import opened Calendar
  import opened Domain
  import opened Text
  import Projections
  import AutomationService

  /** One entry of a saving circle's earning schedule. */
  datatype EarningMonth = EarningMonth(occurrence: int, portion: real)

  datatype SavingCircleInput = SavingCircleInput(totalOccurrences: Option<int>, earningSchedule: Option<seq<EarningMonth>>)

  /** The schedule the wizard writes; only `frequency` and `day` are read
      by the projection engine and the runner. */
  datatype ScheduleInput = ScheduleInput(
    frequency: ScheduleFrequency,
    day: Option<int>,
    startDate: Option<Date>,
    endDate: Option<Date>,
    occurrences: Option<int>)

  /** The automation record the wizard hands to the automation store. */
  datatype AutomationInput = AutomationInput(
    name: string,
    kind: AutomationType,
    amount: real,
    currency: string,
    sourceStreamId: Option<string>,
    targetStreamId: Option<string>,
    schedule: ScheduleInput,
    savingCircle: Option<SavingCircleInput>,
    isActive: bool,
    requiresConfirmation: bool)

  /** A stored automation as the edit button hands it over. */
  datatype AutomationRecord = AutomationRecord(id: string, data: AutomationInput)

  /** What a successful submit asks the automation store to do. */
  datatype SaveRequest = CreateAutomation(data: AutomationInput) | UpdateAutomation(id: string, data: AutomationInput)

  /** The wizard's form fields. */
  datatype Fields = Fields(
    name: string,
    kind: AutomationType,
    amount: Option<real>,
    sourceStreamId: string,
    targetStreamId: string,
    frequency: ScheduleFrequency,
    day: Option<int>,
    startDate: Option<Date>,
    endDate: Option<Date>,
    hasEndDate: bool,
    occurrences: Option<int>,
    hasOccurrences: bool,
    requiresConfirmation: bool,
    totalOccurrences: Option<int>,
    earningMonths: seq<EarningMonth>)

  /** The fields as `resetForm` leaves them. */
  const Defaults := Fields("", Salary, None, "", "", ScheduleMonthly, Some(1), None, None, false,
                           None, false, false, Some(12), [])

  /** `canProceedToStep2`: a non-blank name and an amount (a type is always
      chosen). */
  predicate Step2Ready(f: Fields) {
    Trim(f.name) != "" && f.amount.Some?
  }

  /** `canProceedToStep3`: the streams the type needs are chosen. */
  predicate Step3Ready(f: Fields) {
    match f.kind
    case Salary => f.targetStreamId != ""
    case Installment => f.sourceStreamId != ""
    case SavingCircle => f.sourceStreamId != ""
    case Transfer => f.sourceStreamId != "" && f.targetStreamId != ""
    case CcPayment => f.sourceStreamId != "" && f.targetStreamId != ""
  }

  /** The stream whose currency the automation takes: the target of a
      salary, the source of anything else. */
  function RoleStream(f: Fields): string {
    if f.kind == Salary then f.targetStreamId else f.sourceStreamId
  }

  /** `getSelectedStreamCurrency`: the base currency of the first stream
      with the role stream's id, falling back to `EGP` when there is none or
      its currency is empty. */
  function SelectedStreamCurrency(f: Fields, streams: seq<Stream>): (c: string)
    ensures c != ""
    ensures forall i :: (0 <= i < |streams| && streams[i].id == RoleStream(f) &&
                         (forall j :: 0 <= j < i ==> streams[j].id != RoleStream(f))) ==>
      c == (if streams[i].baseCurrency != "" then streams[i].baseCurrency else "EGP")
    ensures (forall i :: 0 <= i < |streams| ==> streams[i].id != RoleStream(f)) ==> c == "EGP"
  {
    match Projections.FindStream(streams, RoleStream(f))
    case None => "EGP"
    case Some(s) => if s.baseCurrency != "" then s.baseCurrency else "EGP"
  }

  /** `id || undefined` on a picker. */
  function Picked(id: string): (r: Option<string>)
    ensures Truthy(r) <==> id != ""
    ensures r.Some? ==> r.value == id
  {
    if id == "" then None else Some(id)
  }

  /** The record `handleCreate` builds from the fields. */
  function Payload(f: Fields, streams: seq<Stream>): (p: AutomationInput)
    ensures p.name == f.name && p.kind == f.kind && p.requiresConfirmation == f.requiresConfirmation
    ensures p.isActive
    ensures f.amount.None? ==> p.amount == 0.0
    ensures f.amount.Some? ==> p.amount == f.amount.value
    ensures p.currency == SelectedStreamCurrency(f, streams)
    ensures p.schedule.frequency == f.frequency && p.schedule.day == f.day && p.schedule.startDate == f.startDate
    ensures p.schedule.endDate.Some? <==> f.hasEndDate && f.endDate.Some?
    ensures p.schedule.endDate.Some? ==> p.schedule.endDate == f.endDate
    ensures p.schedule.occurrences.Some? <==> f.hasOccurrences && f.occurrences.Some?
    ensures p.schedule.occurrences.Some? ==> p.schedule.occurrences == f.occurrences
    ensures p.savingCircle.Some? <==> f.kind == SavingCircle
    ensures p.savingCircle.Some? ==>
      p.savingCircle.value.totalOccurrences == f.totalOccurrences &&
      (p.savingCircle.value.earningSchedule.Some? <==> |f.earningMonths| > 0)
  {
    AutomationInput(
      f.name,
      f.kind,
      if f.amount.Some? then f.amount.value else 0.0,
      SelectedStreamCurrency(f, streams),
      Picked(f.sourceStreamId),
      Picked(f.targetStreamId),
      ScheduleInput(
        f.frequency,
        f.day,
        f.startDate,
        if f.hasEndDate && f.endDate.Some? then f.endDate else None,
        if f.hasOccurrences && f.occurrences.Some? then f.occurrences else None),
      if f.kind == SavingCircle then
        Some(SavingCircleInput(f.totalOccurrences, if |f.earningMonths| > 0 then Some(f.earningMonths) else None))
      else None,
      true,
      f.requiresConfirmation)
  }

  /** `x || fallback` on a stored number: absent, not a number or zero read
      as the fallback. */
  function NonZeroOr(x: Option<int>, fallback: int): int {
    if x.Some? && x.value != 0 then x.value else fallback
  }

  /** `loadFormFromAutomation`: the fields an edit starts from. */
  function LoadFields(a: AutomationInput): Fields {
    Fields(
      a.name,
      a.kind,
      Some(a.amount),
      OrElse(a.sourceStreamId, ""),
      OrElse(a.targetStreamId, ""),
      a.schedule.frequency,
      Some(NonZeroOr(a.schedule.day, 1)),
      a.schedule.startDate,
      a.schedule.endDate,
      a.schedule.endDate.Some?,
      if a.schedule.occurrences.Some? && a.schedule.occurrences.value != 0 then a.schedule.occurrences else None,
      a.schedule.occurrences.Some? && a.schedule.occurrences.value != 0,
      a.requiresConfirmation,
      Some(if a.savingCircle.Some? then NonZeroOr(a.savingCircle.value.totalOccurrences, 12) else 12),
      if a.savingCircle.Some? && a.savingCircle.value.earningSchedule.Some? then a.savingCircle.value.earningSchedule.value
      else [])
  }

  /** Opening a stored automation and saving it unchanged gives back its
      record, except that a missing or zero day becomes 1, an empty stream id
      is dropped, the currency is taken from the role stream again, and the
      automation is made active. */
  lemma EditRoundTrip(a: AutomationInput, streams: seq<Stream>)
    ensures var p := Payload(LoadFields(a), streams);
      p.name == a.name && p.kind == a.kind && p.amount == a.amount &&
      p.requiresConfirmation == a.requiresConfirmation &&
      p.sourceStreamId == (if Truthy(a.sourceStreamId) then a.sourceStreamId else None) &&
      p.targetStreamId == (if Truthy(a.targetStreamId) then a.targetStreamId else None) &&
      p.schedule.frequency == a.schedule.frequency &&
      p.schedule.startDate == a.schedule.startDate &&
      p.schedule.endDate == a.schedule.endDate &&
      (a.schedule.day.Some? && a.schedule.day.value != 0 ==> p.schedule.day == a.schedule.day) &&
      (a.schedule.day.None? || a.schedule.day.value == 0 ==> p.schedule.day == Some(1)) &&
      (a.schedule.occurrences.Some? && a.schedule.occurrences.value != 0 ==> p.schedule.occurrences == a.schedule.occurrences) &&
      p.isActive
  {
  }

  /** The automation the runner and the projection engine see once the
      record is stored under `id` on day `createdAt`. */
  function Stored(p: AutomationInput, id: string, createdAt: Date): Automation {
    Automation(id, p.name, p.kind, p.amount, Some(p.currency), p.sourceStreamId, p.targetStreamId,
      Schedule(p.schedule.frequency, p.schedule.day), p.isActive, createdAt, None)
  }

  /** An automation saved from a wizard that got past step 2 creates, on a
      day it acts, every transaction its type calls for: one income for a
      salary, an expense and an income for a transfer or a card payment,
      each in the currency the wizard chose. */
  lemma ReadyAutomationRuns(f: Fields, streams: seq<Stream>, id: string, createdAt: Date, date: Date,
                            store: map<string, Stream>, withStreamRepo: bool)
    requires Step3Ready(f)
    ensures var legs := AutomationService.RunnerLegs(Stored(Payload(f, streams), id, createdAt), date, store, withStreamRepo);
      |legs| == (match f.kind
                 case Salary => 1
                 case Transfer => 2
                 case CcPayment => 2
                 case _ => 0) &&
      forall i :: 0 <= i < |legs| ==> legs[i].currency == SelectedStreamCurrency(f, streams)
  {
  }

  /** The wizard's state. */
  class Wizard {
    var fields: Fields
    var currentStep: int
    var isModalOpen: bool
    var editing: Option<AutomationRecord>

    /** Steps run from 1 to 4; a closed wizard is reset; step 2 is reached
        only with step 1 complete and step 3 only with streams chosen. */
    ghost predicate Valid()
      reads this
    {
      1 <= currentStep <= 4 &&
      (!isModalOpen ==> currentStep == 1 && fields == Defaults && editing.None?) &&
      (currentStep >= 2 ==> Step2Ready(fields)) &&
      (currentStep >= 3 ==> Step3Ready(fields))
    }

    constructor()
      ensures Valid() && !isModalOpen
    {
      fields := Defaults;
      currentStep := 1;
      isModalOpen := false;
      editing := None;
    }

    /** The create button: opens the reset wizard. */
    method OpenNew()
      requires Valid() && !isModalOpen
      modifies this
      ensures Valid() && isModalOpen && fields == Defaults && currentStep == 1 && editing.None?
    {
      isModalOpen := true;
    }

    /** `handleEditAutomation`: loads the automation and opens the wizard on
        step 1. */
    method OpenForEdit(r: AutomationRecord)
      requires Valid() && !isModalOpen
      modifies this
      ensures Valid() && isModalOpen && currentStep == 1
      ensures editing == Some(r) && fields == LoadFields(r.data)
    {
      editing := Some(r);
      fields := LoadFields(r.data);
      isModalOpen := true;
    }

    /** `resetForm`: every field back to its default, step 1, no automation
        being edited. */
    method ResetForm()
      requires Valid()
      modifies this
      ensures Valid() && fields == Defaults && currentStep == 1 && editing.None? && isModalOpen == old(isModalOpen)
    {
      fields := Defaults;
      currentStep := 1;
      editing := None;
    }

    /** Closing the wizard resets it. */
    method Close()
      requires Valid()
      modifies this
      ensures Valid() && !isModalOpen
    {
      ResetForm();
      isModalOpen := false;
    }

    /** Whether the Next button is enabled on the current step. */
    predicate NextEnabled()
      reads this
    {
      if currentStep == 1 then Step2Ready(fields) else Step3Ready(fields)
    }

    /** Next: shown below step 4, moves one step on when enabled. */
    method Next()
      requires Valid() && isModalOpen
      modifies this
      ensures Valid() && isModalOpen && fields == old(fields) && editing == old(editing)
      ensures currentStep == if old(currentStep) < 4 && old(NextEnabled()) then old(currentStep) + 1 else old(currentStep)
    {
      if currentStep < 4 && NextEnabled() {
        currentStep := currentStep + 1;
      }
    }

    /** Back: shown above step 1, moves one step back. */
    method Back()
      requires Valid() && isModalOpen
      modifies this
      ensures Valid() && isModalOpen && fields == old(fields) && editing == old(editing)
      ensures currentStep == if old(currentStep) > 1 then old(currentStep) - 1 else old(currentStep)
    {
      if currentStep > 1 {
        currentStep := currentStep - 1;
      }
    }

    /** The inputs of step 1. */
    method EditBasics(kind: AutomationType, name: string, amount: Option<real>)
      requires Valid() && isModalOpen && currentStep == 1
      modifies this
      ensures Valid() && isModalOpen && currentStep == 1 && editing == old(editing)
      ensures fields == old(fields).(kind := kind, name := name, amount := amount)
    {
      fields := fields.(kind := kind, name := name, amount := amount);
    }

    /** The stream pickers of step 2. */
    method EditStreams(sourceStreamId: string, targetStreamId: string)
      requires Valid() && isModalOpen && currentStep == 2
      modifies this
      ensures Valid() && isModalOpen && currentStep == 2 && editing == old(editing)
      ensures fields == old(fields).(sourceStreamId := sourceStreamId, targetStreamId := targetStreamId)
    {
      fields := fields.(sourceStreamId := sourceStreamId, targetStreamId := targetStreamId);
    }

    /** The schedule inputs of step 3. */
    method EditSchedule(frequency: ScheduleFrequency, day: Option<int>, startDate: Option<Date>,
                        endDate: Option<Date>, hasEndDate: bool, occurrences: Option<int>, hasOccurrences: bool,
                        totalOccurrences: Option<int>, earningMonths: seq<EarningMonth>)
      requires Valid() && isModalOpen && currentStep == 3
      modifies this
      ensures Valid() && isModalOpen && currentStep == 3 && editing == old(editing)
      ensures fields == old(fields).(frequency := frequency, day := day, startDate := startDate, endDate := endDate,
                                     hasEndDate := hasEndDate, occurrences := occurrences,
                                     hasOccurrences := hasOccurrences, totalOccurrences := totalOccurrences,
                                     earningMonths := earningMonths)
    {
      fields := fields.(frequency := frequency, day := day, startDate := startDate, endDate := endDate,
                        hasEndDate := hasEndDate, occurrences := occurrences, hasOccurrences := hasOccurrences,
                        totalOccurrences := totalOccurrences, earningMonths := earningMonths);
    }

    /** The confirmation checkbox of step 4. */
    method EditConfirmation(requiresConfirmation: bool)
      requires Valid() && isModalOpen && currentStep == 4
      modifies this
      ensures Valid() && isModalOpen && currentStep == 4 && editing == old(editing)
      ensures fields == old(fields).(requiresConfirmation := requiresConfirmation)
    {
      fields := fields.(requiresConfirmation := requiresConfirmation);
    }

    /** `handleCreate`, submitted from step 4: an update of the automation
        being edited, or a create.  When the store accepts it the wizard is
        closed and reset; when the store throws, the wizard stays as it was.
        Either way the record holds the streams its type needs. */
    method HandleCreate(streams: seq<Stream>, saveFails: bool) returns (req: SaveRequest)
      requires Valid() && isModalOpen && currentStep == 4
      modifies this
      ensures Valid()
      ensures req.data == Payload(old(fields), streams)
      ensures old(editing).Some? ==> req == UpdateAutomation(old(editing).value.id, req.data)
      ensures old(editing).None? ==> req.CreateAutomation?
      ensures Step2Ready(old(fields)) && Step3Ready(old(fields))
      ensures !saveFails ==> !isModalOpen && fields == Defaults && currentStep == 1 && editing.None?
      ensures saveFails ==> isModalOpen && fields == old(fields) && currentStep == 4 && editing == old(editing)
    {
      var data := Payload(fields, streams);
      if editing.Some? {
        req := UpdateAutomation(editing.value.id, data);
      } else {
        req := CreateAutomation(data);
      }
      if !saveFails {
        Close();
      }
    }
  }
}
