/** The projection engine: recurrence rules and monthly automations expanded
    into dated projected transactions inside a window that ends at `toDate`
    and never later than two years after "now" (`now` is a parameter). */
module Projections {
  import opened Calendar
  import opened Domain
  import opened Sorting
  import opened Chains
  import Seqs

  const MaxProjectionYears: int := 2

  /** The last day projections may reach: `toDate`, capped at `now` + 2 years. */
  function EffectiveTo(toDate: Date, now: Date): (r: Date)
    ensures OnOrBefore(r, toDate) && OnOrBefore(r, AddYears(now, MaxProjectionYears))
    ensures r == toDate || r == AddYears(now, MaxProjectionYears)
  {
    var maxDate := AddYears(now, MaxProjectionYears);
    if Before(maxDate, toDate) then maxDate else toDate
  }

  // ---------------------------------------------------------------------
  // Recurrence rules
  // ---------------------------------------------------------------------

  /** What the engine needs of a rule so that its loops end: a custom rule's
      interval is absent or not negative (the recurrence form only saves
      positive intervals; an absent or zero interval means one day). */
  predicate WellFormed(r: Recurrence) {
    r.frequency == Custom ==> r.customIntervalDays.None? || r.customIntervalDays.value >= 0
  }

  /** `customIntervalDays || 1`. */
  function CustomStep(r: Recurrence): int {
    if r.customIntervalDays.Some? && r.customIntervalDays.value != 0 then r.customIntervalDays.value else 1
  }

  /** A monthly rule with a positive explicit day of the month. */
  predicate HasDayOfMonth(r: Recurrence) {
    r.frequency == Monthly && r.dayOfMonth.Some? && r.dayOfMonth.value > 0
  }

  /** Day `day` of `base`'s month; when that day does not exist in the month
      (the native constructor rolls over), the month's last day. */
  function MonthlyDateWithDay(base: Date, day: int): (r: Date)
    requires day >= 1
    ensures DayNumber(r) >= MonthStart(base.year, base.month)
  {
    var candidate := NativeDate(base.year, base.month, day);
    FromMonthIndexOf(base.year, base.month);
    if candidate.month != base.month then
      var n := NextMonth(base.year, base.month);
      FromMonthIndexOf(n.0, n.1);
      MonthStartNext(base.year, base.month);
      NativeDate(base.year, base.month + 1, 0)
    else
      candidate
  }

  function MinInt(a: int, b: int): int { if a <= b then a else b }

  /** For the days the forms accept (1..31) the result stays in `base`'s
      month: on `day`, or on the month's last day when the month is shorter. */
  lemma MonthlyDateWithDayInMonth(base: Date, day: int)
    requires 1 <= day <= 31
    ensures MonthlyDateWithDay(base, day) == YMD(base.year, base.month, MinInt(day, DaysInMonth(base.year, base.month)))
  {
    var y, m := base.year, base.month;
    var dim := DaysInMonth(y, m);
    FromMonthIndexOf(y, m);
    if day > dim {
      var n := NextMonth(y, m);
      assert NormalizeDay(y, m, day) == NormalizeDay(n.0, n.1, day - dim);
      assert NormalizeDay(n.0, n.1, day - dim) == YMD(n.0, n.1, day - dim);
      FromMonthIndexOf(n.0, n.1);
      assert PrevMonth(n.0, n.1) == (y, m);
      assert NormalizeDay(n.0, n.1, 0) == NormalizeDay(y, m, dim);
    }
  }

  /** `getNextOccurrence`: the occurrence after `c`.  Every step moves forward. */
  function NextOccurrence(c: Date, r: Recurrence): (n: Date)
    requires WellFormed(r)
    ensures Before(c, n)
    ensures r.frequency == Daily ==> DayNumber(n) == DayNumber(c) + 1
    ensures r.frequency == Weekly ==> DayNumber(n) == DayNumber(c) + 7
    ensures r.frequency == Custom ==> DayNumber(n) == DayNumber(c) + CustomStep(r)
    ensures r.frequency == Yearly ==> n.month == c.month && n.year == c.year + 1
    ensures r.frequency == Monthly && !HasDayOfMonth(r) ==> MonthIndex(n.year, n.month) == MonthIndex(c.year, c.month) + 1
  {
    match r.frequency
    case Daily => AddDays(c, 1)
    case Weekly => AddDays(c, 7)
    case Monthly =>
      var next := AddMonths(c, 1);
      if r.dayOfMonth.Some? && r.dayOfMonth.value > 0 then
        MonthStartMonotone(c.year, c.month, next.year, next.month);
        MonthlyDateWithDay(next, r.dayOfMonth.value)
      else
        next
    case Yearly => AddYears(c, 1)
    case Custom => AddDays(c, CustomStep(r))
  }

  /** The rule's step as a function value. */
  function Step(r: Recurrence): (step: Date -> Date)
    requires WellFormed(r)
    ensures Advances(step)
  {
    (c: Date) => NextOccurrence(c, r)
  }

  /** One application of the chain step is one `NextOccurrence`. */
  lemma StepIs(r: Recurrence, c: Date)
    requires WellFormed(r)
    ensures Step(r)(c) == NextOccurrence(c, r)
  {
  }

  /** The first date of the occurrence chain: the aligned day of the start
      month (or of the next month, when that day precedes the start) for a
      monthly rule with a day of the month, else the start date. */
  function Anchor(r: Recurrence): (a: Date)
    ensures OnOrBefore(r.startDate, a)
  {
    var start := r.startDate;
    if HasDayOfMonth(r) then
      var candidate := MonthlyDateWithDay(start, r.dayOfMonth.value);
      if Before(candidate, start) then
        var next := AddMonths(start, 1);
        MonthStartMonotone(start.year, start.month, next.year, next.month);
        MonthlyDateWithDay(next, r.dayOfMonth.value)
      else
        candidate
    else
      start
  }

  /** `d` is on the rule's occurrence chain. */
  ghost predicate IsOccurrence(r: Recurrence, d: Date)
    requires WellFormed(r)
  {
    exists k: nat :: d == Iterate(Anchor(r), Step(r), k)
  }

  /** `getFirstOccurrence`: the chain's first date on or after `fromDate`. */
  function FirstOccurrence(r: Recurrence, fromDate: Date): Date
    requires WellFormed(r)
  {
    FastForward(Anchor(r), Step(r), fromDate)
  }

  /** The occurrence dates `generateRecurrenceInstances` visits. */
  function RecurrenceDates(r: Recurrence, fromDate: Date, toDate: Date, now: Date): seq<Date>
    requires WellFormed(r)
  {
    Emit(FirstOccurrence(r, fromDate), Step(r), EffectiveTo(toDate, now), r.endDate)
  }

  /** `d` lies in the projection window: on or after `fromDate`, on or
      before both `toDate` and `now` + 2 years, and not after the end date. */
  predicate InWindow(r: Recurrence, fromDate: Date, toDate: Date, now: Date, d: Date) {
    OnOrBefore(fromDate, d) && OnOrBefore(d, toDate) &&
    OnOrBefore(d, AddYears(now, MaxProjectionYears)) &&
    (r.endDate.None? || OnOrBefore(d, r.endDate.value))
  }

  /** The window theorem: a date is generated exactly when it is on the
      rule's occurrence chain and inside the window (an occurrence on the end
      date itself is generated, nothing after it is). */
  lemma RecurrenceDatesExact(r: Recurrence, fromDate: Date, toDate: Date, now: Date, d: Date)
    requires WellFormed(r)
    ensures d in RecurrenceDates(r, fromDate, toDate, now) <==>
      IsOccurrence(r, d) && InWindow(r, fromDate, toDate, now, d)
  {
    var a, step, eff := Anchor(r), Step(r), EffectiveTo(toDate, now);
    if d in RecurrenceDates(r, fromDate, toDate, now) {
      var k := WindowSound(a, step, fromDate, eff, r.endDate, d);
    }
    if IsOccurrence(r, d) && InWindow(r, fromDate, toDate, now, d) {
      var k: nat :| d == Iterate(a, step, k);
      WindowComplete(a, step, fromDate, eff, r.endDate, k);
    }
  }

  /** Generated dates are strictly increasing, consecutive ones one
      `NextOccurrence` step apart, and none precedes the rule's start. */
  lemma RecurrenceDatesOrdered(r: Recurrence, fromDate: Date, toDate: Date, now: Date)
    requires WellFormed(r)
    ensures var ds := RecurrenceDates(r, fromDate, toDate, now);
      (forall i, j :: 0 <= i < j < |ds| ==> Before(ds[i], ds[j])) &&
      (forall i :: 0 <= i < |ds| - 1 ==> ds[i + 1] == NextOccurrence(ds[i], r)) &&
      (forall i :: 0 <= i < |ds| ==> OnOrBefore(r.startDate, ds[i]))
  {
    var f, step := FirstOccurrence(r, fromDate), Step(r);
    var ds := RecurrenceDates(r, fromDate, toDate, now);
    EmitChain(f, step, EffectiveTo(toDate, now), r.endDate);
    forall i | 0 <= i < |ds| - 1
      ensures ds[i + 1] == NextOccurrence(ds[i], r)
    {
      IterateShift(f, step, i, 1);
    }
    forall i | 0 <= i < |ds|
      ensures OnOrBefore(r.startDate, ds[i])
    {
      if i > 0 {
        IterateIncreasing(f, step, 0, i);
      }
    }
  }

  /** `d` falls on day `day` of its month, or on the last day of a shorter
      month. */
  predicate OnDay(d: Date, day: int) {
    d.day == MinInt(day, DaysInMonth(d.year, d.month))
  }

  /** Every occurrence of a monthly rule with a day of the month 1..31 falls
      on that day, or on the last day of a shorter month: never in the next
      month. */
  lemma MonthlyOccurrencesOnDay(r: Recurrence, d: Date)
    requires WellFormed(r) && HasDayOfMonth(r) && r.dayOfMonth.value <= 31
    requires IsOccurrence(r, d)
    ensures OnDay(d, r.dayOfMonth.value)
  {
    var step := Step(r);
    var k: nat :| d == Iterate(Anchor(r), step, k);
    var day := r.dayOfMonth.value;
    var start := r.startDate;
    MonthlyDateWithDayInMonth(start, day);
    MonthlyDateWithDayInMonth(AddMonths(start, 1), day);
    forall x
      ensures OnDay(step(x), day)
    {
      NextOnDay(x, r);
    }
    ChainOnDay(Anchor(r), step, day, k);
  }

  /** One step of a monthly rule with a day of the month 1..31 lands on that
      day, or on the last day of a shorter month. */
  lemma NextOnDay(c: Date, r: Recurrence)
    requires WellFormed(r) && HasDayOfMonth(r) && r.dayOfMonth.value <= 31
    ensures OnDay(NextOccurrence(c, r), r.dayOfMonth.value)
  {
    MonthlyDateWithDayInMonth(AddMonths(c, 1), r.dayOfMonth.value);
  }

  lemma {:induction false} ChainOnDay(c: Date, step: Date -> Date, day: int, k: nat)
    requires OnDay(c, day) && forall x :: OnDay(step(x), day)
    ensures OnDay(Iterate(c, step, k), day)
    decreases k
  {
    if k > 0 {
      ChainOnDay(step(c), step, day, k - 1);
    }
  }

  /** The instance generated for occurrence `d`. */
  function Instance(r: Recurrence, d: Date, now: Date): ProjectedTransaction {
    ProjectedTransaction(
      streamId := r.streamId, amount := r.amount, currency := "",
      applicabilityDate := d, kind := r.kind, tags := r.tags,
      recurrenceId := Some(r.id), description := r.description,
      isProjected := true, projectionDate := now)
  }

  function InstancesOf(r: Recurrence, ds: seq<Date>, now: Date): (ps: seq<ProjectedTransaction>)
    ensures |ps| == |ds| && forall i :: 0 <= i < |ds| ==> ps[i] == Instance(r, ds[i], now)
  {
    if |ds| == 0 then [] else [Instance(r, ds[0], now)] + InstancesOf(r, ds[1..], now)
  }

  /** `generateRecurrenceInstances` as a function. */
  function RecurrenceInstances(r: Recurrence, fromDate: Date, toDate: Date, now: Date): seq<ProjectedTransaction>
    requires WellFormed(r)
  {
    InstancesOf(r, RecurrenceDates(r, fromDate, toDate, now), now)
  }

  /** Each generated instance copies the rule's stream, amount, type, tags
      and description, points back to the rule, has an empty currency, is
      flagged projected, and is dated on an occurrence inside the window. */
  lemma RecurrenceInstanceFields(r: Recurrence, fromDate: Date, toDate: Date, now: Date, p: ProjectedTransaction)
    requires WellFormed(r) && p in RecurrenceInstances(r, fromDate, toDate, now)
    ensures p.streamId == r.streamId && p.amount == r.amount && p.kind == r.kind
    ensures p.tags == r.tags && p.description == r.description
    ensures p.recurrenceId == Some(r.id) && p.currency == ""
    ensures p.isProjected && p.projectionDate == now
    ensures IsOccurrence(r, p.applicabilityDate) && InWindow(r, fromDate, toDate, now, p.applicabilityDate)
  {
    var ds := RecurrenceDates(r, fromDate, toDate, now);
    var i :| 0 <= i < |ds| && p == RecurrenceInstances(r, fromDate, toDate, now)[i];
    RecurrenceDatesExact(r, fromDate, toDate, now, ds[i]);
  }

  /** `getFirstOccurrence`. */
  method GetFirstOccurrence(r: Recurrence, fromDate: Date) returns (c: Date)
    requires WellFormed(r)
    ensures c == FirstOccurrence(r, fromDate)
    ensures OnOrBefore(fromDate, c) && OnOrBefore(r.startDate, c)
  {
    var start := r.startDate;
    if r.frequency == Monthly && r.dayOfMonth.Some? && r.dayOfMonth.value > 0 {
      var day := r.dayOfMonth.value;
      var candidate := MonthlyDateWithDay(start, day);
      if Before(candidate, start) {
        var next := AddMonths(start, 1);
        candidate := MonthlyDateWithDay(next, day);
      }
      while Before(candidate, fromDate)
        invariant FastForward(candidate, Step(r), fromDate) == FirstOccurrence(r, fromDate)
        invariant OnOrBefore(start, candidate)
        decreases DayNumber(fromDate) - DayNumber(candidate)
      {
        var next := AddMonths(candidate, 1);
        candidate := MonthlyDateWithDay(next, day);
      }
      return candidate;
    }
    var current := start;
    while Before(current, fromDate)
      invariant FastForward(current, Step(r), fromDate) == FirstOccurrence(r, fromDate)
      invariant OnOrBefore(start, current)
      decreases DayNumber(fromDate) - DayNumber(current)
    {
      current := NextOccurrence(current, r);
    }
    return current;
  }

  /** `generateRecurrenceInstances`: one instance per occurrence from the
      first one on or after `fromDate` while on or before the effective end,
      stopping at the first occurrence after the rule's end date. */
  method GenerateRecurrenceInstances(r: Recurrence, fromDate: Date, toDate: Date, now: Date)
    returns (instances: seq<ProjectedTransaction>)
    requires WellFormed(r)
    ensures instances == RecurrenceInstances(r, fromDate, toDate, now)
  {
    var maxDate := AddYears(now, MaxProjectionYears);
    var effectiveTo := if Before(maxDate, toDate) then maxDate else toDate;
    var current := GetFirstOccurrence(r, fromDate);
    ghost var done: seq<Date> := [];
    instances := [];
    assert done + Emit(current, Step(r), effectiveTo, r.endDate) == RecurrenceDates(r, fromDate, toDate, now);
    while OnOrBefore(current, effectiveTo)
      invariant effectiveTo == EffectiveTo(toDate, now)
      invariant RecurrenceLoop(r, fromDate, toDate, now, done, current, instances)
      decreases DayNumber(effectiveTo) - DayNumber(current)
    {
      if r.endDate.Some? && Before(r.endDate.value, current) {
        break;
      }
      var next := NextOccurrence(current, r);
      ghost var before, taken := current, done;
      instances := instances + [Instance(r, current, now)];
      done := done + [current];
      current := next;
      RecurrenceAdvance(r, fromDate, toDate, now, taken, before, instances);
    }
    RecurrenceLoopEnds(r, fromDate, toDate, now, done, current, instances);
  }

  /** The generation loop's invariant: the dates emitted so far, followed by
      the rest of the chain from `current`, are the window's dates, and one
      instance has been made per emitted date. */
  ghost predicate RecurrenceLoop(r: Recurrence, fromDate: Date, toDate: Date, now: Date,
                                 done: seq<Date>, current: Date, instances: seq<ProjectedTransaction>)
    requires WellFormed(r)
  {
    done + Emit(current, Step(r), EffectiveTo(toDate, now), r.endDate) == RecurrenceDates(r, fromDate, toDate, now) &&
    instances == InstancesOf(r, done, now)
  }

  /** Emitting one more date keeps the loop's invariant. */
  lemma RecurrenceAdvance(r: Recurrence, fromDate: Date, toDate: Date, now: Date,
                          done: seq<Date>, c: Date, instances: seq<ProjectedTransaction>)
    requires WellFormed(r) && RecurrenceLoop(r, fromDate, toDate, now, done, c, InstancesOf(r, done, now))
    requires OnOrBefore(c, EffectiveTo(toDate, now)) && !(r.endDate.Some? && Before(r.endDate.value, c))
    requires instances == InstancesOf(r, done, now) + [Instance(r, c, now)]
    ensures RecurrenceLoop(r, fromDate, toDate, now, done + [c], NextOccurrence(c, r), instances)
  {
    var eff := EffectiveTo(toDate, now);
    StepIs(r, c);
    assert Emit(c, Step(r), eff, r.endDate) == [c] + Emit(NextOccurrence(c, r), Step(r), eff, r.endDate);
    ConsShift(done, c, Emit(NextOccurrence(c, r), Step(r), eff, r.endDate));
  }

  /** When the loop stops, every window date has been emitted. */
  lemma RecurrenceLoopEnds(r: Recurrence, fromDate: Date, toDate: Date, now: Date,
                           done: seq<Date>, c: Date, instances: seq<ProjectedTransaction>)
    requires WellFormed(r) && RecurrenceLoop(r, fromDate, toDate, now, done, c, instances)
    requires !OnOrBefore(c, EffectiveTo(toDate, now)) || (r.endDate.Some? && Before(r.endDate.value, c))
    ensures instances == RecurrenceInstances(r, fromDate, toDate, now)
  {
    assert done + [] == RecurrenceDates(r, fromDate, toDate, now);
  }

  /** Where the preview starts: the start date, or `today` when the start
      date is in the past. */
  function UpcomingStart(r: Recurrence, today: Date): (s: Date)
    ensures OnOrBefore(r.startDate, s) && OnOrBefore(today, s)
    ensures s == r.startDate || s == today
  {
    if Before(r.startDate, today) then today else r.startDate
  }

  /** `getUpcomingInstances` (the source's default `count` is 5). */
  method GetUpcomingInstances(r: Recurrence, count: int, today: Date) returns (instances: seq<Date>)
    requires WellFormed(r)
    ensures instances == Take(UpcomingStart(r, today), Step(r), count, r.endDate)
  {
    var current := r.startDate;
    if Before(current, today) {
      current := today;
    }
    instances := [];
    var i := 0;
    while i < count
      invariant UpcomingLoop(r, today, count, instances, current, i)
      decreases count - i
    {
      if r.endDate.Some? && Before(r.endDate.value, current) {
        TakeStops(current, Step(r), count - i, r.endDate);
        break;
      }
      ghost var before, taken := current, instances;
      var next := NextOccurrence(current, r);
      instances := instances + [current];
      current := next;
      i := i + 1;
      UpcomingAdvance(r, today, count, taken, before, i);
    }
    TakeStops(current, Step(r), count - i, r.endDate);
  }

  /** The preview loop's invariant: the dates taken, followed by the rest of
      the chain from `current`, are the whole preview. */
  ghost predicate UpcomingLoop(r: Recurrence, today: Date, count: int, taken: seq<Date>, current: Date, i: int)
    requires WellFormed(r)
  {
    taken + Take(current, Step(r), count - i, r.endDate) == Take(UpcomingStart(r, today), Step(r), count, r.endDate)
  }

  /** One step of the preview loop keeps its invariant. */
  lemma UpcomingAdvance(r: Recurrence, today: Date, count: int, taken: seq<Date>, c: Date, i: int)
    requires WellFormed(r) && i <= count && !(r.endDate.Some? && Before(r.endDate.value, c))
    requires UpcomingLoop(r, today, count, taken, c, i - 1)
    ensures UpcomingLoop(r, today, count, taken + [c], NextOccurrence(c, r), i)
  {
    StepIs(r, c);
    TakeCons(taken, c, Step(r), count - (i - 1), r.endDate);
  }

  /** The preview holds at most `count` dates, starts at the later of the
      start date and `today`, advances one `NextOccurrence` step at a time
      (strictly increasing), never passes the end date, and is cut short only
      by the end date. */
  lemma UpcomingInstancesShape(r: Recurrence, count: int, today: Date)
    requires WellFormed(r)
    ensures var ds := Take(UpcomingStart(r, today), Step(r), count, r.endDate);
      |ds| <= (if count < 0 then 0 else count) &&
      (|ds| > 0 ==> ds[0] == UpcomingStart(r, today)) &&
      (forall i :: 0 <= i < |ds| - 1 ==> ds[i + 1] == NextOccurrence(ds[i], r)) &&
      (forall i, j :: 0 <= i < j < |ds| ==> Before(ds[i], ds[j])) &&
      (forall i :: 0 <= i < |ds| ==> r.endDate.None? || OnOrBefore(ds[i], r.endDate.value)) &&
      (|ds| < count ==>
        r.endDate.Some? && Before(r.endDate.value, Iterate(UpcomingStart(r, today), Step(r), |ds|)))
  {
    var s, step := UpcomingStart(r, today), Step(r);
    var ds := Take(s, step, count, r.endDate);
    TakeChain(s, step, count, r.endDate);
    ChainSuccessor(ds, s, step);
    forall i | 0 <= i < |ds| - 1
      ensures ds[i + 1] == NextOccurrence(ds[i], r)
    {
      StepIs(r, ds[i]);
    }
    forall i, j | 0 <= i < j < |ds|
      ensures Before(ds[i], ds[j])
    {
      IterateIncreasing(s, step, i, j);
    }
  }

  // ---------------------------------------------------------------------
  // Merging
  // ---------------------------------------------------------------------

  /** The comparator `a.applicabilityDate - b.applicabilityDate`, as "not later". */
  predicate ProjectedLe(p: ProjectedTransaction, q: ProjectedTransaction) {
    DayNumber(p.applicabilityDate) <= DayNumber(q.applicabilityDate)
  }

  lemma ProjectedLeIsPreorder()
    ensures TotalPreorder(ProjectedLe)
  {
  }

  /** The instances of all rules, rule by rule, before sorting. */
  function AllRecurrenceInstances(rs: seq<Recurrence>, fromDate: Date, toDate: Date, now: Date): seq<ProjectedTransaction>
    requires forall i :: 0 <= i < |rs| ==> WellFormed(rs[i])
  {
    Seqs.ConcatMap(rs, (r: Recurrence) requires WellFormed(r) => RecurrenceInstances(r, fromDate, toDate, now))
  }

  /** An instance is in the concatenation exactly when one of the rules
      generated it. */
  lemma AllRecurrenceInstancesMembers(rs: seq<Recurrence>, fromDate: Date, toDate: Date, now: Date, p: ProjectedTransaction)
    requires forall i :: 0 <= i < |rs| ==> WellFormed(rs[i])
    ensures p in AllRecurrenceInstances(rs, fromDate, toDate, now) <==>
      exists i :: 0 <= i < |rs| && p in RecurrenceInstances(rs[i], fromDate, toDate, now)
  {
    Seqs.ConcatMapMembers(rs, (r: Recurrence) requires WellFormed(r) => RecurrenceInstances(r, fromDate, toDate, now), p);
  }

  /** `generateAllProjections` as a function. */
  function AllProjections(rs: seq<Recurrence>, fromDate: Date, toDate: Date, now: Date): (ps: seq<ProjectedTransaction>)
    requires forall i :: 0 <= i < |rs| ==> WellFormed(rs[i])
    ensures multiset(ps) == multiset(AllRecurrenceInstances(rs, fromDate, toDate, now))
    ensures SortedWith(ps, ProjectedLe)
  {
    ProjectedLeIsPreorder();
    SortWith(AllRecurrenceInstances(rs, fromDate, toDate, now), ProjectedLe)
  }

  /** `generateAllProjections`: every rule's instances, all of them kept
      (no de-duplication), sorted by date. */
  method GenerateAllProjections(rs: seq<Recurrence>, fromDate: Date, toDate: Date, now: Date)
    returns (ps: seq<ProjectedTransaction>)
    requires forall i :: 0 <= i < |rs| ==> WellFormed(rs[i])
    ensures ps == AllProjections(rs, fromDate, toDate, now)
    ensures multiset(ps) == multiset(AllRecurrenceInstances(rs, fromDate, toDate, now))
    ensures SortedWith(ps, ProjectedLe)
  {
    var all: seq<ProjectedTransaction> := [];
    for k := 0 to |rs|
      invariant all == AllRecurrenceInstances(rs[..k], fromDate, toDate, now)
    {
      var instances := GenerateRecurrenceInstances(rs[k], fromDate, toDate, now);
      assert rs[..k + 1][..k] == rs[..k];
      all := all + instances;
    }
    assert rs[..|rs|] == rs;
    ProjectedLeIsPreorder();
    ps := SortWith(all, ProjectedLe);
  }

  // ---------------------------------------------------------------------
  // Monthly automations
  // ---------------------------------------------------------------------

  /** The automations the expander projects: active, scheduled monthly, with
      a numeric day (an absent day is skipped; a NaN day yields an invalid
      date that no comparison accepts, so it yields nothing either). */
  predicate Projects(a: Automation) {
    a.isActive && a.schedule.frequency == ScheduleMonthly && a.schedule.day.Some?
  }

  /** What the expander needs of a projected automation so that its loops
      end: a day of at least 1 (the wizard's minimum). */
  predicate AutomationWellFormed(a: Automation) {
    Projects(a) ==> a.schedule.day.value >= 1
  }

  /** The first date: day `min(day, 28)` of the month `createdAt` falls in. */
  function AutoAnchor(a: Automation): Date
    requires Projects(a)
  {
    NativeDate(a.createdAt.year, a.createdAt.month, MinInt(a.schedule.day.value, 28))
  }

  /** For a day of at least 1 the anchor stays in the creation month. */
  lemma AutoAnchorInMonth(a: Automation)
    requires Projects(a) && AutomationWellFormed(a)
    ensures AutoAnchor(a) == YMD(a.createdAt.year, a.createdAt.month, MinInt(a.schedule.day.value, 28))
  {
    var y, m := a.createdAt.year, a.createdAt.month;
    FromMonthIndexOf(y, m);
  }

  /** The step as written: `addMonths(c, 1)`, then the native constructor on
      day `min(day, 31)` of that month, which rolls over into the following
      month when the month is shorter. */
  function AutoNextAsWritten(c: Date, day: int): (n: Date)
    ensures day >= 1 ==> Before(c, n)
  {
    var next := AddMonths(c, 1);
    var d := MinInt(day, 31);
    MonthStartMonotone(c.year, c.month, next.year, next.month);
    FromMonthIndexOf(next.year, next.month);
    NativeDate(next.year, next.month, d)
  }

  /** As written, the step lands on day `min(day, 31)` of the next month
      when that day exists, and otherwise overflows into the month after it. */
  lemma AutoNextAsWrittenLands(c: Date, day: int)
    requires day >= 1
    ensures var n := AddMonths(c, 1);
      var d := MinInt(day, 31);
      var dim := DaysInMonth(n.year, n.month);
      var following := NextMonth(n.year, n.month);
      AutoNextAsWritten(c, day) ==
        if d <= dim then YMD(n.year, n.month, d) else YMD(following.0, following.1, d - dim)
  {
    var n := AddMonths(c, 1);
    var d := MinInt(day, 31);
    FromMonthIndexOf(n.year, n.month);
    var following := NextMonth(n.year, n.month);
    if d > DaysInMonth(n.year, n.month) {
      assert NormalizeDay(n.year, n.month, d) == NormalizeDay(following.0, following.1, d - DaysInMonth(n.year, n.month));
    }
  }

  /** As written, a day-31 automation created in January 2023 moves from
      January 31 to March 3: February gets no projection. */
  lemma AutoNextAsWrittenSkipsFebruary()
    ensures AutoNextAsWritten(YMD(2023, 1, 31), 31) == YMD(2023, 3, 3)
  {
    assert FromMonthIndex(MonthIndex(2023, 1) + 1) == (2023, 2);
    assert AddMonths(YMD(2023, 1, 31), 1) == YMD(2023, 2, 28);
    AutoNextAsWrittenLands(YMD(2023, 1, 31), 31);
  }

  /** As written, a day of 0 makes the step stand still (day 0 of a month is
      the previous month's last day), so the expander's loops would not end. */
  lemma AutoNextAsWrittenStallsOnDayZero()
    ensures AutoNextAsWritten(YMD(2024, 3, 31), 0) == YMD(2024, 3, 31)
  {
    StepFromEndOfMarch();
    DayZeroOfApril();
  }

  /** From 31 March 2024 the as-written step asks for day 0 of April. */
  lemma StepFromEndOfMarch()
    ensures AutoNextAsWritten(YMD(2024, 3, 31), 0) == NativeDate(2024, 4, 0)
  {
    FromMonthIndexOf(2024, 4);
    assert MonthIndex(2024, 3) + 1 == MonthIndex(2024, 4);
    assert AddMonths(YMD(2024, 3, 31), 1) == YMD(2024, 4, 30);
  }

  /** Day 0 of April 2024 is 31 March 2024. */
  lemma DayZeroOfApril()
    ensures NativeDate(2024, 4, 0) == YMD(2024, 3, 31)
  {
    FromMonthIndexOf(2024, 4);
    assert NativeDate(2024, 4, 0) == NormalizeDay(2024, 4, 0);
    assert PrevMonth(2024, 4) == (2024, 3);
    assert NormalizeDay(2024, 4, 0) == NormalizeDay(2024, 3, 31);
  }

  /** The corrected step: day `min(day, 31)` of the next month, clamped to
      that month's last day, as `getMonthlyDateWithDay` does for rules. */
  function AutoNext(c: Date, day: int): (n: Date)
    requires day >= 1
    ensures MonthIndex(n.year, n.month) == MonthIndex(c.year, c.month) + 1
    ensures n.day == MinInt(MinInt(day, 31), DaysInMonth(n.year, n.month))
    ensures Before(c, n)
  {
    var next := AddMonths(c, 1);
    MonthStartMonotone(c.year, c.month, next.year, next.month);
    MonthlyDateWithDayInMonth(next, MinInt(day, 31));
    MonthlyDateWithDay(next, MinInt(day, 31))
  }

  /** The two steps agree whenever the day exists in the next month. */
  lemma AutoNextAgreesWhenDayFits(c: Date, day: int)
    requires day >= 1
    requires MinInt(day, 31) <= DaysInMonth(AddMonths(c, 1).year, AddMonths(c, 1).month)
    ensures AutoNextAsWritten(c, day) == AutoNext(c, day)
  {
    var next := AddMonths(c, 1);
    FromMonthIndexOf(next.year, next.month);
    MonthlyDateWithDayInMonth(next, MinInt(day, 31));
  }

  function AutoStep(day: int): (step: Date -> Date)
    requires day >= 1
    ensures Advances(step)
    ensures forall c :: step(c) == AutoNext(c, day)
  {
    (c: Date) => AutoNext(c, day)
  }

  function AutoStepAsWritten(day: int): (step: Date -> Date)
    requires day >= 1
    ensures Advances(step)
    ensures forall c :: step(c) == AutoNextAsWritten(c, day)
  {
    (c: Date) => AutoNextAsWritten(c, day)
  }

  /** The dates an automation is projected on, for a given step: fast-forward
      from the anchor to `fromDate`, then every date up to the effective end
      (automations have no end date). */
  function AutomationDatesBy(a: Automation, step: Date -> Date, fromDate: Date, toDate: Date, now: Date): seq<Date>
    requires Projects(a) && Advances(step)
  {
    Emit(FastForward(AutoAnchor(a), step, fromDate), step, EffectiveTo(toDate, now), None)
  }

  /** The window theorem for automations, for any advancing step: a date is
      projected exactly when it is on the chain from the anchor, on or after
      `fromDate`, and on or before both `toDate` and `now` + 2 years. */
  lemma AutomationDatesExact(a: Automation, step: Date -> Date, fromDate: Date, toDate: Date, now: Date, d: Date)
    requires Projects(a) && Advances(step)
    ensures d in AutomationDatesBy(a, step, fromDate, toDate, now) <==>
      (exists k: nat :: d == Iterate(AutoAnchor(a), step, k)) &&
      OnOrBefore(fromDate, d) && OnOrBefore(d, toDate) && OnOrBefore(d, AddYears(now, MaxProjectionYears))
  {
    var anchor, eff := AutoAnchor(a), EffectiveTo(toDate, now);
    if d in AutomationDatesBy(a, step, fromDate, toDate, now) {
      var k := WindowSound(anchor, step, fromDate, eff, None, d);
    }
    if (exists k: nat :: d == Iterate(anchor, step, k)) &&
      OnOrBefore(fromDate, d) && OnOrBefore(d, toDate) && OnOrBefore(d, AddYears(now, MaxProjectionYears))
    {
      var k: nat :| d == Iterate(anchor, step, k);
      WindowComplete(anchor, step, fromDate, eff, None, k);
    }
  }

  /** With the corrected step, consecutive projected dates of an automation
      are in consecutive calendar months: one date per month. */
  lemma AutomationDatesMonthly(a: Automation, fromDate: Date, toDate: Date, now: Date)
    requires Projects(a) && AutomationWellFormed(a)
    ensures var ds := AutomationDatesBy(a, AutoStep(a.schedule.day.value), fromDate, toDate, now);
      forall i :: 0 <= i < |ds| - 1 ==>
        MonthIndex(ds[i + 1].year, ds[i + 1].month) == MonthIndex(ds[i].year, ds[i].month) + 1
  {
    var step := AutoStep(a.schedule.day.value);
    var f := FastForward(AutoAnchor(a), step, fromDate);
    var ds := AutomationDatesBy(a, step, fromDate, toDate, now);
    EmitChain(f, step, EffectiveTo(toDate, now), None);
    ChainSuccessor(ds, f, step);
    forall i | 0 <= i < |ds| - 1
      ensures MonthIndex(ds[i + 1].year, ds[i + 1].month) == MonthIndex(ds[i].year, ds[i].month) + 1
    {
      assert ds[i + 1] == AutoNext(ds[i], a.schedule.day.value);
    }
  }

  /** The dates the model projects an automation on (corrected step). */
  function AutomationDates(a: Automation, fromDate: Date, toDate: Date, now: Date): seq<Date>
    requires Projects(a) && AutomationWellFormed(a)
  {
    AutomationDatesBy(a, AutoStep(a.schedule.day.value), fromDate, toDate, now)
  }

  /** The first stream with this id, if any. */
  function FindStream(streams: seq<Stream>, id: string): (r: Option<Stream>)
    ensures r.Some? ==> r.value in streams && r.value.id == id
    ensures r.None? <==> forall i :: 0 <= i < |streams| ==> streams[i].id != id
    ensures forall i :: (0 <= i < |streams| && streams[i].id == id &&
                         (forall j :: 0 <= j < i ==> streams[j].id != id)) ==> r == Some(streams[i])
  {
    if |streams| == 0 then None
    else if streams[0].id == id then Some(streams[0])
    else
      var r := FindStream(streams[1..], id);
      assert forall i :: 1 <= i < |streams| ==> streams[i] == streams[1..][i - 1];
      r
  }

  /** `getStreamCurrency`: the base currency of the stream with that id. */
  function StreamCurrency(streams: seq<Stream>, id: Option<string>): Option<string> {
    if !Truthy(id) then None
    else
      match FindStream(streams, id.value)
      case None => None
      case Some(s) => Some(s.baseCurrency)
  }

  /** The currency of an automation's projections: its own currency, else the
      target stream's, else the source stream's, else `USD`. */
  function ProjectionCurrency(a: Automation, streams: seq<Stream>): (c: string)
    ensures Truthy(a.currency) ==> c == a.currency.value
    ensures !Truthy(a.currency) && Truthy(StreamCurrency(streams, a.targetStreamId)) ==>
      c == StreamCurrency(streams, a.targetStreamId).value
    ensures (!Truthy(a.currency) && !Truthy(StreamCurrency(streams, a.targetStreamId)) &&
             Truthy(StreamCurrency(streams, a.sourceStreamId))) ==>
      c == StreamCurrency(streams, a.sourceStreamId).value
    ensures c == "USD" || c == OrElse(a.currency, "") ||
      c == OrElse(StreamCurrency(streams, a.targetStreamId), "") ||
      c == OrElse(StreamCurrency(streams, a.sourceStreamId), "")
  {
    OrElse(a.currency,
      OrElse(StreamCurrency(streams, a.targetStreamId),
        OrElse(StreamCurrency(streams, a.sourceStreamId), "USD")))
  }

  /** One projected leg of an automation on date `d`. */
  function Leg(a: Automation, streamId: string, kind: TxType, d: Date, currency: string, now: Date): ProjectedTransaction {
    ProjectedTransaction(
      streamId := streamId, amount := a.amount, currency := currency,
      applicabilityDate := d, kind := kind, tags := [],
      recurrenceId := Some(a.id), description := Some(a.name),
      isProjected := true, projectionDate := now)
  }

  /** The legs for one date: salary gives an income on the target; transfer
      and card payment give an expense on the source and an income on the
      target, each only when that stream is set; other types give nothing. */
  function Legs(a: Automation, d: Date, currency: string, now: Date): seq<ProjectedTransaction> {
    var expense := if Truthy(a.sourceStreamId) then [Leg(a, a.sourceStreamId.value, Expense, d, currency, now)] else [];
    var income := if Truthy(a.targetStreamId) then [Leg(a, a.targetStreamId.value, Income, d, currency, now)] else [];
    match a.kind
    case Salary => income
    case Transfer => expense + income
    case CcPayment => expense + income
    case _ => []
  }

  /** `p` is one of the legs automation `a` emits on `p`'s own date. */
  predicate IsLegOf(a: Automation, p: ProjectedTransaction, currency: string, now: Date) {
    p == Leg(a, p.streamId, p.kind, p.applicabilityDate, currency, now) &&
    ((p.kind == Income && a.kind in {Salary, Transfer, CcPayment} &&
      Truthy(a.targetStreamId) && p.streamId == a.targetStreamId.value) ||
     (p.kind == Expense && a.kind in {Transfer, CcPayment} &&
      Truthy(a.sourceStreamId) && p.streamId == a.sourceStreamId.value))
  }

  /** The number of legs per date. */
  function LegCount(a: Automation): nat {
    var e := if Truthy(a.sourceStreamId) then 1 else 0;
    var i := if Truthy(a.targetStreamId) then 1 else 0;
    match a.kind
    case Salary => i
    case Transfer => e + i
    case CcPayment => e + i
    case _ => 0
  }

  lemma LegsExact(a: Automation, d: Date, currency: string, now: Date, p: ProjectedTransaction)
    ensures |Legs(a, d, currency, now)| == LegCount(a)
    ensures p in Legs(a, d, currency, now) <==> p.applicabilityDate == d && IsLegOf(a, p, currency, now)
  {
  }

  /** All legs for a list of dates, date by date. */
  function LegsOver(a: Automation, ds: seq<Date>, currency: string, now: Date): (ps: seq<ProjectedTransaction>)
    ensures |ps| == |ds| * LegCount(a)
  {
    if |ds| == 0 then []
    else
      LegsExact(a, ds[0], currency, now, Leg(a, "", Income, ds[0], currency, now));
      Legs(a, ds[0], currency, now) + LegsOver(a, ds[1..], currency, now)
  }

  /** Appending a date appends its legs. */
  lemma {:induction false} LegsOverAppend(a: Automation, ds: seq<Date>, d: Date, currency: string, now: Date)
    ensures LegsOver(a, ds + [d], currency, now) == LegsOver(a, ds, currency, now) + Legs(a, d, currency, now)
    decreases |ds|
  {
    if |ds| == 0 {
      assert ds + [d] == [d];
    } else {
      assert (ds + [d])[1..] == ds[1..] + [d];
      LegsOverAppend(a, ds[1..], d, currency, now);
    }
  }

  /** A leg is in `LegsOver` exactly when its date is one of the dates and it
      is a leg of the automation. */
  lemma {:induction false} LegsOverMembers(a: Automation, ds: seq<Date>, currency: string, now: Date, p: ProjectedTransaction)
    ensures p in LegsOver(a, ds, currency, now) <==> p.applicabilityDate in ds && IsLegOf(a, p, currency, now)
    decreases |ds|
  {
    if |ds| > 0 {
      LegsExact(a, ds[0], currency, now, p);
      LegsOverMembers(a, ds[1..], currency, now, p);
      assert ds == [ds[0]] + ds[1..];
    }
  }

  /** One automation's projected instances, in generation order. */
  function AutomationInstances(a: Automation, streams: seq<Stream>, fromDate: Date, toDate: Date, now: Date): seq<ProjectedTransaction>
    requires AutomationWellFormed(a)
  {
    if Projects(a) then LegsOver(a, AutomationDates(a, fromDate, toDate, now), ProjectionCurrency(a, streams), now)
    else []
  }

  /** An automation contributes exactly the legs of its type on its projected
      dates, in the inferred currency; inactive, non-monthly and day-less
      automations contribute nothing.  Every leg carries the automation's
      amount, its name as description and its id as recurrence id. */
  lemma AutomationInstancesExact(a: Automation, streams: seq<Stream>, fromDate: Date, toDate: Date, now: Date, p: ProjectedTransaction)
    requires AutomationWellFormed(a)
    ensures p in AutomationInstances(a, streams, fromDate, toDate, now) <==>
      Projects(a) && p.applicabilityDate in AutomationDates(a, fromDate, toDate, now) &&
      IsLegOf(a, p, ProjectionCurrency(a, streams), now)
    ensures |AutomationInstances(a, streams, fromDate, toDate, now)| ==
      if Projects(a) then |AutomationDates(a, fromDate, toDate, now)| * LegCount(a) else 0
  {
    if Projects(a) {
      LegsOverMembers(a, AutomationDates(a, fromDate, toDate, now), ProjectionCurrency(a, streams), now, p);
    }
  }

  /** For a day of 28 or less the corrected and the as-written steps give the
      same projected dates, and so the same instances: the two differ only for
      days 29 to 31. */
  lemma AutomationDatesAgreeUpTo28(a: Automation, streams: seq<Stream>, fromDate: Date, toDate: Date, now: Date)
    requires Projects(a) && AutomationWellFormed(a) && a.schedule.day.value <= 28
    ensures AutomationDates(a, fromDate, toDate, now) ==
      AutomationDatesBy(a, AutoStepAsWritten(a.schedule.day.value), fromDate, toDate, now)
    ensures AutomationInstances(a, streams, fromDate, toDate, now) ==
      LegsOver(a, AutomationDatesBy(a, AutoStepAsWritten(a.schedule.day.value), fromDate, toDate, now),
               ProjectionCurrency(a, streams), now)
  {
    var day := a.schedule.day.value;
    var s1, s2 := AutoStep(day), AutoStepAsWritten(day);
    forall c: Date
      ensures s1(c) == s2(c)
    {
      var next := AddMonths(c, 1);
      assert MinInt(day, 31) <= DaysInMonth(next.year, next.month);
      AutoNextAgreesWhenDayFits(c, day);
    }
    FastForwardSameSteps(AutoAnchor(a), s1, s2, fromDate);
    EmitSameSteps(FastForward(AutoAnchor(a), s1, fromDate), s1, s2, EffectiveTo(toDate, now), None);
  }

  /** The instances of all automations, automation by automation, before sorting. */
  function AllAutomationInstances(autos: seq<Automation>, streams: seq<Stream>, fromDate: Date, toDate: Date, now: Date): seq<ProjectedTransaction>
    requires forall i :: 0 <= i < |autos| ==> AutomationWellFormed(autos[i])
  {
    Seqs.ConcatMap(autos, (a: Automation) requires AutomationWellFormed(a) => AutomationInstances(a, streams, fromDate, toDate, now))
  }

  /** An instance is in the concatenation exactly when one of the
      automations contributed it. */
  lemma AllAutomationInstancesMembers(autos: seq<Automation>, streams: seq<Stream>, fromDate: Date, toDate: Date, now: Date, p: ProjectedTransaction)
    requires forall i :: 0 <= i < |autos| ==> AutomationWellFormed(autos[i])
    ensures p in AllAutomationInstances(autos, streams, fromDate, toDate, now) <==>
      exists i :: 0 <= i < |autos| && p in AutomationInstances(autos[i], streams, fromDate, toDate, now)
  {
    Seqs.ConcatMapMembers(autos, (a: Automation) requires AutomationWellFormed(a) => AutomationInstances(a, streams, fromDate, toDate, now), p);
  }

  /** `generateAutomationInstances` as a function. */
  function AutomationProjections(autos: seq<Automation>, streams: seq<Stream>, fromDate: Date, toDate: Date, now: Date): (ps: seq<ProjectedTransaction>)
    requires forall i :: 0 <= i < |autos| ==> AutomationWellFormed(autos[i])
    ensures multiset(ps) == multiset(AllAutomationInstances(autos, streams, fromDate, toDate, now))
    ensures SortedWith(ps, ProjectedLe)
  {
    ProjectedLeIsPreorder();
    SortWith(AllAutomationInstances(autos, streams, fromDate, toDate, now), ProjectedLe)
  }

  /** The branch on the automation type inside the emission loop. */
  method EmitLegs(a: Automation, d: Date, currency: string, now: Date) returns (legs: seq<ProjectedTransaction>)
    ensures legs == Legs(a, d, currency, now)
  {
    legs := [];
    if a.kind == Salary {
      if Truthy(a.targetStreamId) {
        legs := legs + [Leg(a, a.targetStreamId.value, Income, d, currency, now)];
      }
    } else if a.kind == Transfer {
      if Truthy(a.sourceStreamId) {
        legs := legs + [Leg(a, a.sourceStreamId.value, Expense, d, currency, now)];
      }
      if Truthy(a.targetStreamId) {
        legs := legs + [Leg(a, a.targetStreamId.value, Income, d, currency, now)];
      }
    } else if a.kind == CcPayment {
      if Truthy(a.sourceStreamId) {
        legs := legs + [Leg(a, a.sourceStreamId.value, Expense, d, currency, now)];
      }
      if Truthy(a.targetStreamId) {
        legs := legs + [Leg(a, a.targetStreamId.value, Income, d, currency, now)];
      }
    }
  }

  /** The body of the expander's loop for one projected automation. */
  method ExpandAutomation(a: Automation, streams: seq<Stream>, fromDate: Date, toDate: Date, now: Date)
    returns (instances: seq<ProjectedTransaction>)
    requires Projects(a) && AutomationWellFormed(a)
    ensures instances == AutomationInstances(a, streams, fromDate, toDate, now)
  {
    var day := a.schedule.day.value;
    var current := NativeDate(a.createdAt.year, a.createdAt.month, MinInt(day, 28));
    ghost var step := AutoStep(day);
    while Before(current, fromDate)
      invariant FastForward(current, step, fromDate) == FastForward(AutoAnchor(a), step, fromDate)
      decreases DayNumber(fromDate) - DayNumber(current)
    {
      current := AutoNext(current, day);
    }
    var maxDate := AddYears(now, MaxProjectionYears);
    var effectiveTo := if Before(maxDate, toDate) then maxDate else toDate;
    assert effectiveTo == EffectiveTo(toDate, now);
    ghost var done: seq<Date> := [];
    ghost var currencyOf := ProjectionCurrency(a, streams);
    instances := [];
    while OnOrBefore(current, effectiveTo)
      invariant done + Emit(current, step, effectiveTo, None) == AutomationDates(a, fromDate, toDate, now)
      invariant instances == LegsOver(a, done, currencyOf, now)
      decreases DayNumber(effectiveTo) - DayNumber(current)
    {
      var currency := ProjectionCurrency(a, streams);
      var legs := EmitLegs(a, current, currency, now);
      var next := AutoNext(current, day);
      assert step(current) == next;
      assert Emit(current, step, effectiveTo, None) == [current] + Emit(next, step, effectiveTo, None);
      ConsShift(done, current, Emit(next, step, effectiveTo, None));
      LegsOverAppend(a, done, current, currency, now);
      instances := instances + legs;
      done := done + [current];
      current := next;
    }
    assert done == AutomationDates(a, fromDate, toDate, now);
  }

  /** `generateAutomationInstances`: every projected automation expanded in
      turn, the others skipped, then everything sorted by date. */
  method GenerateAutomationInstances(autos: seq<Automation>, streams: seq<Stream>, fromDate: Date, toDate: Date, now: Date)
    returns (ps: seq<ProjectedTransaction>)
    requires forall i :: 0 <= i < |autos| ==> AutomationWellFormed(autos[i])
    ensures ps == AutomationProjections(autos, streams, fromDate, toDate, now)
  {
    var instances: seq<ProjectedTransaction> := [];
    for k := 0 to |autos|
      invariant instances == AllAutomationInstances(autos[..k], streams, fromDate, toDate, now)
    {
      var a := autos[k];
      assert autos[..k + 1][..k] == autos[..k];
      if !a.isActive || a.schedule.frequency != ScheduleMonthly || a.schedule.day.None? {
        continue;
      }
      var legs := ExpandAutomation(a, streams, fromDate, toDate, now);
      instances := instances + legs;
    }
    assert autos[..|autos|] == autos;
    ProjectedLeIsPreorder();
    ps := SortWith(instances, ProjectedLe);
  }

  /** `generateAllProjectionsWithAutomations`: both kinds of projections,
      every instance kept, sorted by date. */
  function ProjectionsWithAutomations(rs: seq<Recurrence>, autos: seq<Automation>, streams: seq<Stream>,
                                      fromDate: Date, toDate: Date, now: Date): (ps: seq<ProjectedTransaction>)
    requires forall i :: 0 <= i < |rs| ==> WellFormed(rs[i])
    requires forall i :: 0 <= i < |autos| ==> AutomationWellFormed(autos[i])
    ensures multiset(ps) == multiset(AllRecurrenceInstances(rs, fromDate, toDate, now)) +
      multiset(AllAutomationInstances(autos, streams, fromDate, toDate, now))
    ensures SortedWith(ps, ProjectedLe)
  {
    ProjectedLeIsPreorder();
    SortWith(AllProjections(rs, fromDate, toDate, now) + AutomationProjections(autos, streams, fromDate, toDate, now), ProjectedLe)
  }

  /** An element of the combined list: a stored or a projected transaction. */
  datatype Entry = RealEntry(tx: Transaction) | ProjectedEntry(projected: ProjectedTransaction)

  function EntryDate(e: Entry): Date {
    match e
    case RealEntry(t) => t.applicabilityDate
    case ProjectedEntry(p) => p.applicabilityDate
  }

  predicate EntryLe(e: Entry, f: Entry) {
    DayNumber(EntryDate(e)) <= DayNumber(EntryDate(f))
  }

  lemma EntryLeIsPreorder()
    ensures TotalPreorder(EntryLe)
  {
  }

  function RealEntries(ts: seq<Transaction>): (es: seq<Entry>)
    ensures |es| == |ts| && forall i :: 0 <= i < |ts| ==> es[i] == RealEntry(ts[i])
  {
    seq(|ts|, i requires 0 <= i < |ts| => RealEntry(ts[i]))
  }

  function ProjectedEntries(ps: seq<ProjectedTransaction>): (es: seq<Entry>)
    ensures |es| == |ps| && forall i :: 0 <= i < |ps| ==> es[i] == ProjectedEntry(ps[i])
  {
    seq(|ps|, i requires 0 <= i < |ps| => ProjectedEntry(ps[i]))
  }

  /** `combineRealAndProjected`: every stored and every projected
      transaction, each exactly as often as given, sorted by date. */
  function CombineRealAndProjected(stored: seq<Transaction>, projected: seq<ProjectedTransaction>): (es: seq<Entry>)
    ensures multiset(es) == multiset(RealEntries(stored)) + multiset(ProjectedEntries(projected))
    ensures SortedWith(es, EntryLe)
  {
    EntryLeIsPreorder();
    SortWith(RealEntries(stored) + ProjectedEntries(projected), EntryLe)
  }

  /** The combined list is as long as both inputs together. */
  lemma CombineLength(stored: seq<Transaction>, projected: seq<ProjectedTransaction>)
    ensures |CombineRealAndProjected(stored, projected)| == |stored| + |projected|
  {
    var es := CombineRealAndProjected(stored, projected);
    assert |multiset(es)| == |multiset(RealEntries(stored) + ProjectedEntries(projected))|;
  }
}
