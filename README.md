# floosy-feen: projection, balance and store rules in Dafny

floosy-feen is a local-first personal finance tracker. A user keeps
*streams* (bank accounts, wallets, credit cards) and dated *transactions*
on them. *Recurrence rules* project future transactions. Monthly
*automations* (salary, transfer, credit-card payment) are projected, and
a runner also turns them into real transactions on their day. Balances
are shown in a primary currency, through a table of cached exchange
rates.

This project models the following, all on in-memory values:

- the projection engine;
- the balance reductions;
- the automation runner;
- the repositories over an in-memory store;
- the cross-rate derivation done at start-up;
- the CSV export;
- the input validation and payload shaping of the four forms (stream, transaction, recurrence, automation wizard).

Each module is proved against a specification.

Modelling conventions:

- **Dates** are calendar days (`Calendar.Date`). Every comparison in the source goes through `DayNumber`, the number of days since 1970-01-01.
  - date-fns `addMonths` is "same day, clamped to the last day of the target month".
  - `addYears(d, n)` is `addMonths(d, 12 n)`.
  - The native `new Date(y, m, d)` overflows into the following month (`Calendar.NativeDate`).
- **"Now"**, today and every wall-clock timestamp are parameters. Time of day is not modelled.
- **The store** is `Store.Database`, a class with one map per object store, keyed by id. The repository operations are methods that `modify` it.
- **Fresh ids** come from `Store.NewId`, which returns an id not yet used.
- **In-place list updates in the forms and the wizard** are fields of type `seq` that the methods reassign.
- **Amounts and rates** are `real`.
- **Number inputs** are `Option` values; `None` is an empty or unparsable input.

## Model

| member | source | states |
|---|---|---|
| Calendar.AddDays | lib/calculations/projections.ts:59-62 | date-fns `addDays`: the result is exactly `n` day numbers later |
| Calendar.AddMonths | lib/calculations/projections.ts:67-74 | date-fns `addMonths`: the month index moves by `n`, the day is kept or clamped to the target month's last day, and a positive `n` moves strictly later |
| Calendar.AddYears | lib/calculations/projections.ts:76-77 | date-fns `addYears`: same month, year + n, strictly later for n > 0 |
| Calendar.NativeDate | lib/calculations/projections.ts:96-101 | `new Date(y, m, d)`: any day number rolls over natively, relative to the first day of the (normalised) month |
| Calendar.NativeDateInRange | lib/calculations/projections.ts:96-104 | a valid year, month and day is not moved by the native constructor |
| Projections.EffectiveTo | lib/calculations/projections.ts:24-25 | the window end is `toDate` capped at now + 2 years, and is one of the two |
| Projections.MonthlyDateWithDay | lib/calculations/projections.ts:91-105 | `getMonthlyDateWithDay` never lands before the start of the base month |
| Projections.MonthlyDateWithDayInMonth | lib/calculations/projections.ts:91-105 | for days 1..31 the result is that day, or the month's last day when the month is shorter, always in the same month |
| Projections.NextOccurrence | lib/calculations/projections.ts:59-85 | `getNextOccurrence` moves strictly later: daily +1, weekly +7, custom +(interval or 1) days, yearly +1 year on the same month, monthly without a day to the next month |
| Projections.Step | lib/calculations/projections.ts:59-85 | the step as a function value advances and equals `NextOccurrence` everywhere |
| Projections.Anchor | lib/calculations/projections.ts:112-123 | the aligned start of a rule is never before its start date |
| Projections.GetFirstOccurrence | lib/calculations/projections.ts:112-141 | the loop computes the first chain date on or after `fromDate`, which is also not before the start date |
| Projections.RecurrenceDatesExact | lib/calculations/projections.ts:16-54 | a date is generated iff it is an occurrence of the rule, on or after `fromDate`, on or before the capped window end, and not after the rule's end date |
| Projections.RecurrenceDatesOrdered | lib/calculations/projections.ts:28-51 | generated dates are strictly increasing, each follows the previous by `getNextOccurrence`, and none is before the start date |
| Projections.MonthlyOccurrencesOnDay | lib/calculations/projections.ts:112-131 | every occurrence of a monthly rule with a day of the month falls on that day, or on the last day of a shorter month |
| Projections.NextOnDay | lib/calculations/projections.ts:67-72 | a monthly step with a day of the month lands on that day, clamped to the month's end |
| Projections.ChainOnDay | lib/calculations/projections.ts:126-129 | iterating a step that lands on the day keeps every chain date on the day |
| Projections.InstancesOf | lib/calculations/projections.ts:37-48 | one instance per occurrence date, in order |
| Projections.RecurrenceInstanceFields | lib/calculations/projections.ts:37-48 | each instance copies stream, amount, type, tags and description, links the rule's id, has currency '' and is projected, on an occurrence date inside the window |
| Projections.GenerateRecurrenceInstances | lib/calculations/projections.ts:16-54 | the generating loop returns exactly the instances of the specification |
| Projections.UpcomingStart | lib/calculations/projections.ts:331-337 | the preview starts at the later of the start date and today |
| Projections.GetUpcomingInstances | lib/calculations/projections.ts:326-350 | the preview loop returns the specification's chain prefix |
| Projections.UpcomingInstancesShape | lib/calculations/projections.ts:326-350 | at most `count` dates, starting at the later of the start date and today, stepping by `getNextOccurrence`, strictly increasing, none after the end date, and fewer than `count` only when the end date stops it |
| Projections.ProjectedLeIsPreorder | lib/calculations/projections.ts:158-160 | the date comparator is a total preorder, so the sort is well defined |
| Projections.AllRecurrenceInstancesMembers | lib/calculations/projections.ts:153-156 | the concatenation holds exactly the instances of each rule |
| Projections.AllProjections | lib/calculations/projections.ts:146-161 | `generateAllProjections` is a permutation of all instances, sorted by date |
| Projections.GenerateAllProjections | lib/calculations/projections.ts:146-161 | the loop and sort compute `AllProjections`: every instance kept (no de-duplication), ascending by date |
| Projections.AutoAnchorInMonth | lib/calculations/projections.ts:184-186 | the automation anchor is day min(day, 28) of the month `createdAt` falls in |
| Projections.AutoNextAsWritten | lib/calculations/projections.ts:286-289 | the step as written moves strictly later for a day of at least 1 |
| Projections.AutoNextAsWrittenLands | lib/calculations/projections.ts:286-289 | as written, the step lands on day min(day, 31) of the next month when it exists and otherwise overflows into the month after |
| Projections.AutoNextAsWrittenSkipsFebruary | lib/calculations/projections.ts:286-289 | as written, a day-31 automation on 31 January 2023 is next projected on 3 March 2023 |
| Projections.AutoNextAsWrittenStallsOnDayZero | lib/calculations/projections.ts:286-289 | as written, a day-0 automation on 31 March 2024 steps back to the same date, so the loop does not advance |
| Projections.AutoNext | lib/calculations/projections.ts:286-289 | the corrected step moves to the next month, on day min(day, 31) clamped to that month's last day |
| Projections.AutoNextAgreesWhenDayFits | lib/calculations/projections.ts:286-289 | the corrected and as-written steps agree whenever the day exists in the next month |
| Projections.AutoStep | lib/calculations/projections.ts:286-289 | the corrected step as a function value advances |
| Projections.AutoStepAsWritten | lib/calculations/projections.ts:286-289 | the as-written step as a function value advances |
| Projections.AutomationDatesExact | lib/calculations/projections.ts:186-198 | a date is projected iff it is on the step chain from the anchor, not before `fromDate`, not after `toDate` nor now + 2 years |
| Projections.AutomationDatesMonthly | lib/calculations/projections.ts:189-191 | with the corrected step, successive projected dates fall in successive months |
| Projections.FindStream | lib/calculations/projections.ts:203-207 | `streams.find`: the first stream with the id, or none exactly when no stream has it |
| Projections.ProjectionCurrency | lib/calculations/projections.ts:209 | the automation's currency, else the target stream's, else the source stream's, else 'USD' |
| Projections.LegsExact | lib/calculations/projections.ts:211-284 | a date yields exactly the legs of the type: salary one income on the target, transfer and cc_payment an expense on the source and an income on the target, each only when set |
| Projections.LegsOver | lib/calculations/projections.ts:198-290 | each projected date contributes the same number of legs |
| Projections.LegsOverAppend | lib/calculations/projections.ts:198-290 | one more date appends its legs |
| Projections.LegsOverMembers | lib/calculations/projections.ts:198-290 | a leg is emitted iff its date is one of the dates and it is a leg of the automation |
| Projections.AutomationInstancesExact | lib/calculations/projections.ts:174-290 | inactive, non-monthly and dayless automations project nothing; otherwise the instances are exactly the legs on the projected dates of the corrected monthly step (see Findings) |
| Projections.AutomationDatesAgreeUpTo28 | lib/calculations/projections.ts:186-289 | for a day of 28 or less the corrected step and the as-written `addMonths` + `new Date(y, m, min(day, 31))` step project the same dates and the same instances |
| Projections.AllAutomationInstancesMembers | lib/calculations/projections.ts:174-291 | the concatenation holds exactly the instances of each automation |
| Projections.AutomationProjections | lib/calculations/projections.ts:166-294 | `generateAutomationInstances`, with the corrected monthly step, is a permutation of all automation instances, sorted by date |
| Projections.EmitLegs | lib/calculations/projections.ts:211-284 | the type branch in the loop emits exactly `Legs` |
| Projections.ExpandAutomation | lib/calculations/projections.ts:180-290 | the per-automation loop, stepping with the corrected monthly step, computes the specification's instances |
| Projections.GenerateAutomationInstances | lib/calculations/projections.ts:166-294 | the whole expander, with the corrected monthly step, computes `AutomationProjections` |
| Projections.ProjectionsWithAutomations | lib/calculations/projections.ts:299-309 | the merged list is the multiset union of the recurrence instances and the corrected automation instances, sorted by date |
| Projections.EntryLeIsPreorder | lib/calculations/projections.ts:318-320 | the combined comparator is a total preorder |
| Projections.RealEntries | lib/calculations/projections.ts:318 | each stored transaction becomes one entry, in order |
| Projections.ProjectedEntries | lib/calculations/projections.ts:318 | each projected transaction becomes one entry, in order |
| Projections.CombineRealAndProjected | lib/calculations/projections.ts:314-321 | the combined list is a permutation of real and projected entries, sorted by date |
| Projections.CombineLength | lib/calculations/projections.ts:314-321 | nothing is dropped or duplicated: the length is the sum of both |
| Balance.Convert | lib/calculations/balance.ts:35-49 | an amount of zero stays zero, and the amount changes only when there is a target in another currency and the table holds a direct or an inverse rate for the pair |
| Balance.ConvertRoundTrip | lib/calculations/balance.ts:35-49 | with only the direct rate stored, converting there and back gives the amount back |
| Balance.ConvertCases | lib/calculations/balance.ts:35-49 | no stored rate leaves the amount unchanged; the inverse rate is used by division |
| Balance.MoneyInHand | lib/calculations/balance.ts:23-53 | the converted total of the transactions dated on or before the date: the whole total when all are, zero when all are later |
| Balance.ProjectedMoney | lib/calculations/balance.ts:58-82 | the converted total of the transactions dated after the date: the whole total when all are, zero when none is |
| Balance.TotalBalance | lib/calculations/balance.ts:87-108 | the converted signed sum of every transaction whatever its date; `BalancePartition` splits it into money in hand and projected money |
| Balance.MoneyInHandStep | lib/calculations/balance.ts:23-56 | money in hand of no transactions is 0, and one more transaction adds its converted signed amount iff it applies on or before the date |
| Balance.BalancePartition | lib/calculations/balance.ts:58-108 | money in hand plus projected money is the total balance |
| Balance.MoneyInHandOrderFree | lib/calculations/balance.ts:23-56 | money in hand does not depend on the order of the transactions |
| Balance.StreamBalance | lib/calculations/balance.ts:113-123 | the unconverted money in hand of the stream's transactions dated on or before the date; `StreamBalanceIsStreamMoneyInHand` states it |
| Balance.StreamBalanceIsStreamMoneyInHand | lib/calculations/balance.ts:113-123 | a stream's balance is the unconverted money in hand of that stream's transactions only |
| Balance.StreamSumAppend | lib/calculations/balance.ts:128-143 | one more transaction changes only its own stream's sum |
| Balance.CalculateStreamBalances | lib/calculations/balance.ts:128-143 | the map's keys are exactly the streams with a transaction on or before the date, each mapped to that stream's balance |
| Balance.StreamsOfMembers | lib/calculations/balance.ts:128-143 | a stream is a key iff some counted transaction is on it |
| Balance.StreamSumsStep | lib/calculations/balance.ts:134-140 | the forEach step adds the transaction to its own stream's entry only |
| Balance.TxLeIsPreorder | lib/calculations/balance.ts:148-171 | the chart's date order is a total preorder |
| Balance.TxLaterFirstIsPreorder | app/home/page.tsx:199 | the latest-first order is a total preorder |
| Balance.CalculateBalanceOverTime | lib/calculations/balance.ts:148-171 | point i is at startDate + i * interval, never after endDate, with the money in hand of that date; the next step would pass endDate; an interval of zero or less is accepted when startDate is after endDate and gives no points |
| Balance.IncomeVsExpense | lib/calculations/balance.ts:176-202 | separate converted sums of income and expense dated within the range, both ends included; `IncomeVsExpenseStep` and `IncomeMinusExpenseIsNet` state them |
| Balance.IncomeVsExpenseStep | lib/calculations/balance.ts:176-202 | both range ends are included, and income and expense are separate converted sums |
| Balance.IncomeMinusExpenseIsNet | lib/calculations/balance.ts:176-202 | income minus expense is the converted net total of the range |
| AutomationService.InferCurrency | services/automation.service.ts:43-48 | a leg's currency is the automation's, else that leg's stream base currency when a stream repository is given, else 'EGP' |
| AutomationService.CurrencyIgnoresUsage | services/automation.service.ts:43-48 | card usage written by earlier legs does not change a later leg's currency |
| AutomationService.RunnerLegs | services/automation.service.ts:49-122 | at most two legs, each dated `date`, with the automation's amount, name as description, no tags, no recurrence link and the inferred currency; income only on the target, expense only on the source |
| AutomationService.RunnerMatchesProjection | services/automation.service.ts:92-121 | the runner creates the legs the projector shows, except that a cc_payment with one stream missing creates nothing where the projector shows one leg |
| AutomationService.Payloads | services/automation.service.ts:52-61 | the caller-supplied part of each created transaction, in order |
| AutomationService.PutAllKeys | services/automation.service.ts:52-120 | after the puts, the stored ids are the earlier ones and the created ones |
| AutomationService.PutAllAdds | services/automation.service.ts:52-120 | fresh ids add one record each and leave earlier records unchanged |
| AutomationService.MarkedAll | services/automation.service.ts:124-128 | exactly the acting automations that did not fail get `lastRunAt = date`; no other record changes |
| AutomationService.MarkedAllIdempotent | services/automation.service.ts:33-39 | marking a second time on the same day changes nothing |
| AutomationService.ActedInStep | services/automation.service.ts:18-39 | whether an automation acted grows one list element at a time |
| AutomationService.MarkedClosed | services/automation.service.ts:18-128 | the loop's marks in closed form: a record is marked iff an automation with its id acted and did not fail |
| AutomationService.MarkedOverAll | services/automation.service.ts:16-18 | running over all stored automations marks as `MarkedAll` says |
| AutomationService.IdleRunCreatesNothing | services/automation.service.ts:18-39 | inactive, non-monthly, wrong-day, already-run and failing automations create no transaction |
| AutomationService.SecondRunCreatesNothing | services/automation.service.ts:33-39 | a second run on the same day creates nothing |
| AutomationService.AppendCreated | services/automation.service.ts:52-120 | one more created transaction extends the payloads, the transaction store and the card usage by it |
| AutomationService.RunnerLegsIgnoreUsage | services/automation.service.ts:43-122 | the legs do not depend on card usage |
| AutomationService.CreatedStep | services/automation.service.ts:52-61 | one repository create moves the run's summary forward by one transaction |
| AutomationService.CreateOne | services/automation.service.ts:52-61 | one leg is created through the repository and nothing but transactions and streams changes |
| AutomationService.CreateAll | services/automation.service.ts:63-121 | the legs are created in order through the repository |
| AutomationService.RunOne | services/automation.service.ts:19-128 | one automation creates its legs iff it acts and does not fail, then is marked |
| AutomationService.StampLastRun | services/automation.service.ts:124-125 | the stored record gets `lastRunAt = date`; a missing one leaves the store unchanged (the update throws and the handler absorbs it); nothing else changes |
| AutomationService.RunAutomations | services/automation.service.ts:18-130 | the loop creates exactly the legs of the acting, non-failing automations, in list order, and marks them |
| AutomationService.RunAutomationsForDate | services/automation.service.ts:11-131 | the created transactions are exactly `RunLegs` over the stored automations taken in some order (salary one income; transfer and cc_payment an expense and an income), so each is a leg of a stored automation that acts on `date` and did not fail; the automations end as `MarkedAll` says |
| AutomationService.RunLegsSource | services/automation.service.ts:18-122 | every created leg comes from an acting, non-failing automation of the list |
| TransactionRepository.WithIdentity | repositories/transaction.repository.ts:12-16 | the stored record is the given data with the new id and timestamp |
| TransactionRepository.UsageAfter | repositories/transaction.repository.ts:29-36 | a card's new usage is previous (0 when absent) plus the expense or minus the income, clamped to [0, creditLimit] |
| TransactionRepository.StreamsAfterCreate | repositories/transaction.repository.ts:25-44 | only the transaction's stream changes, only its usage, and only when it has a credit limit |
| TransactionRepository.CardsStayInBounds | repositories/transaction.repository.ts:25-44 | creating transactions keeps every card's usage within [0, creditLimit] |
| TransactionRepository.StreamsAfterCreates | repositories/transaction.repository.ts:25-44 | a sequence of creates changes no stream field but the usage |
| TransactionRepository.Create | repositories/transaction.repository.ts:10-50 | the data is stored under a fresh id with `createdAt = now`, and the stream usage is updated as `StreamsAfterCreate` says |
| TransactionRepository.FindById | repositories/transaction.repository.ts:52-63 | the stored record under the id, or none exactly when it is absent |
| TransactionRepository.FindAll | repositories/transaction.repository.ts:65-74 | every stored transaction, once per key |
| TransactionRepository.FindByStream | repositories/transaction.repository.ts:76-86 | exactly the stored transactions of the stream |
| TransactionRepository.FindByDateRange | repositories/transaction.repository.ts:88-95 | exactly the stored transactions with fromDate <= date <= toDate |
| TransactionRepository.MoneyInHandProjectedPartition | repositories/transaction.repository.ts:97-105 | money-in-hand and projected lists split `findAll` without overlap |
| TransactionRepository.FindMoneyInHand | repositories/transaction.repository.ts:97-100 | exactly the stored transactions on or before the date |
| TransactionRepository.FindProjected | repositories/transaction.repository.ts:102-105 | exactly the stored transactions after the date |
| TransactionRepository.FindByRecurrence | repositories/transaction.repository.ts:107-117 | exactly the stored transactions linked to the recurrence |
| TransactionRepository.ApplyPatch | repositories/transaction.repository.ts:127-132 | the merge keeps id and createdAt; an empty patch changes nothing |
| TransactionRepository.ApplyPatchIdempotent | repositories/transaction.repository.ts:127-132 | applying a patch twice is applying it once |
| TransactionRepository.Update | repositories/transaction.repository.ts:119-142 | fails iff the id is unknown, storing nothing; otherwise stores the merge; stream usage is not adjusted |
| TransactionRepository.Delete | repositories/transaction.repository.ts:144-147 | removes the record, and usage is not adjusted |
| TransactionRepository.WithoutRecurrence | repositories/transaction.repository.ts:149-156 | the store minus exactly the recurrence's records |
| TransactionRepository.DeleteByRecurrence | repositories/transaction.repository.ts:149-156 | removes exactly the transactions linked to the recurrence, and no others |
| TransactionRepository.RemovedIsRecurrence | repositories/transaction.repository.ts:149-156 | deleting the ids the lookup found leaves the store without the recurrence's records |
| StreamRepository.Create | repositories/stream.repository.ts:10-31 | the data is stored under a fresh id, `createdAt = now` and not archived |
| StreamRepository.FindById | repositories/stream.repository.ts:33-44 | the stored stream, or none exactly when absent |
| StreamRepository.FindAll | repositories/stream.repository.ts:46-57 | every stored stream |
| StreamRepository.FindActive | repositories/stream.repository.ts:59-68 | exactly the stored streams whose archivedAt is null |
| StreamRepository.ApplyPatch | repositories/stream.repository.ts:85-91 | the merge keeps id, createdAt and baseCurrency and takes other given fields |
| StreamRepository.ChangesCurrency | repositories/stream.repository.ts:81 | a truthy `baseCurrency` in the patch that differs from the stored one; `Update` refuses exactly these and `CurrencyLocked` follows |
| StreamRepository.Update | repositories/stream.repository.ts:72-101 | fails iff the id is unknown or the patch changes the currency, storing nothing; otherwise stores the merge |
| StreamRepository.CurrencyLocked | repositories/stream.repository.ts:80-91 | no sequence of updates changes a stream's currency, id or createdAt |
| StreamRepository.Archive | repositories/stream.repository.ts:103-105 | sets archivedAt, so the stream drops out of `findActive` |
| StreamRepository.Delete | repositories/stream.repository.ts:107-110 | removes the record |
| TagRepository.Create | repositories/tag.repository.ts:10-25 | stores a new tag under a fresh id; the unique name index refuses a name already stored |
| TagRepository.FindNamed | repositories/tag.repository.ts:54-58 | the index lookup finds a tag with the name iff one is stored |
| TagRepository.FindById | repositories/tag.repository.ts:27-37 | the stored tag, or none exactly when absent |
| TagRepository.FindAll | repositories/tag.repository.ts:39-47 | every stored tag |
| TagRepository.FindByName | repositories/tag.repository.ts:49-69 | a stored tag with the name, none when there is none or when the index lookup throws |
| TagRepository.FindOrCreate | repositories/tag.repository.ts:71-76 | an existing tag is returned without writing; otherwise a new one is stored; either way exactly one stored tag has the name |
| TagRepository.Update | repositories/tag.repository.ts:78-100 | fails iff the id is unknown or the new name is taken; otherwise keeps id and createdAt |
| TagRepository.Delete | repositories/tag.repository.ts:102-105 | removes the record |
| ExchangeRateRepository.GetRate | repositories/exchange-rate.repository.ts:6-10 | the entry under `FROM_TO_DATE`, or none when absent |
| ExchangeRateRepository.SaveRate | repositories/exchange-rate.repository.ts:12-15 | puts the entry under its id, replacing any entry there |
| ExchangeRateRepository.FindAll | repositories/exchange-rate.repository.ts:29-32 | every stored entry |
| ExchangeRateRepository.LaterFirstIsPreorder | repositories/exchange-rate.repository.ts:25 | the date comparator is a total preorder |
| ExchangeRateRepository.HeadIsLatest | repositories/exchange-rate.repository.ts:25-26 | the head of the sorted list has the latest date |
| ExchangeRateRepository.GetLatestRate | repositories/exchange-rate.repository.ts:17-27 | none iff the pair has no entry; otherwise a stored entry of the pair whose date is not before any other's |
| SettingsRepository.Get | repositories/settings.repository.ts:10-21 | the record under '1', or none when absent |
| SettingsRepository.Create | repositories/settings.repository.ts:23-41 | stores the only record, id '1', isFirstLaunch false, both timestamps now |
| SettingsRepository.Merge | repositories/settings.repository.ts:51-57 | the merge keeps id '1' and createdAt and refreshes updatedAt |
| SettingsRepository.Update | repositories/settings.repository.ts:43-67 | fails iff there is no record; otherwise stores the merge as the only record |
| SettingsRepository.IsFirstLaunch | repositories/settings.repository.ts:69-72 | true iff there is no record or its flag is set |
| SettingsRepository.MarkLaunchComplete | repositories/settings.repository.ts:74-79 | clears the flag when there is a record and does nothing otherwise; afterwards `isFirstLaunch` is false iff a record existed |
| Store.Database.constructor | lib/db/init.ts:51 | a fresh store is empty, and no two tags share a name |
| Store.ValuesOf | repositories/transaction.repository.ts:65-67 | `getAll`: every stored record once |
| Store.NewId | repositories/transaction.repository.ts:14 | `uuidv4`: an id not yet used |
| Exporter.StreamCellIsFirstMatch | lib/export/exporter.ts:39-45 | the first matching stream's name, or 'Unknown' |
| Exporter.Lines | lib/export/exporter.ts:52-55 | the header line, then one data line per transaction in input order |
| Exporter.JoinAvoids | lib/export/exporter.ts:52-55 | joining adds no character that is absent from the parts and the separator |
| Exporter.ExportToCsv | lib/export/exporter.ts:22-58 | the lines joined by line feeds; `CsvLines` shows that splitting gives back the header and one line per transaction |
| Exporter.CsvLines | lib/export/exporter.ts:22-58 | split at newlines, the export is the header line and one line per transaction, whatever the date range |
| Exporter.DataLineAvoids | lib/export/exporter.ts:54 | a data line adds no character but commas and quotes |
| Exporter.HeaderCells | lib/export/exporter.ts:27-36 | the header line is the eight headers, Date to Created At |
| Exporter.DataCells | lib/export/exporter.ts:38-54 | a data line is eight quoted cells in header order; the stream cell is the stream's name and the tags cell the tags joined by '; ' |
| StreamsSection.MaxCreatedAt | components/home/StreamsSection.tsx:24 | `Math.max` of the creation times: an upper bound that is attained |
| StreamsSection.LatestActivity | components/home/StreamsSection.tsx:19-28 | the latest creation time of the stream's transactions, or the stream's own when it has none |
| StreamsSection.RecentFirstIsPreorder | components/home/StreamsSection.tsx:18-32 | the comparator is a total preorder |
| StreamsSection.SortedStreams | components/home/StreamsSection.tsx:17-33 | a permutation of the streams, latest activity first |
| StreamsSection.ShowsCredit | components/home/StreamsSection.tsx:75 | the stream is flagged as a card and has a non-zero limit |
| StreamsSection.ShownValue | components/home/StreamsSection.tsx:70-83 | a card's limit less its usage up to the day, else the stream's balance; `ShownValueIsBalance` relates both to the balance engine |
| StreamsSection.ShownValueIsBalance | components/home/StreamsSection.tsx:70-83 | a plain stream shows its balance; a card shows limit minus opening usage plus its balance |
| CreditSummary.Cards | components/home/CreditSummaryCard.tsx:15 | exactly the streams flagged as cards with a non-zero limit |
| CreditSummary.Summarize | components/home/CreditSummaryCard.tsx:13-45 | nothing when there are no cards; otherwise the summed limits, the summed usage, and available = limit − used, which is the sum of the values the stream list shows |
| CreditSummary.AvailableIsSumOfShown | components/home/CreditSummaryCard.tsx:25-45 | the summary's available credit is the sum of the cards' shown values |
| HomePage.EarlierFirstIsPreorder | app/home/page.tsx:64 | the date comparator is a total preorder |
| HomePage.RateFold | app/home/page.tsx:66-68 | each entry in turn sets its `FROM_TO` key, so a later entry overwrites an earlier one; `FoldKeepsLatest` shows the latest-dated rate survives after the sort |
| HomePage.FoldKeepsLatest | app/home/page.tsx:64-68 | folding sorted entries gives one key per pair, holding the rate of that pair's latest-dated entry |
| HomePage.BuildRateMap | app/home/page.tsx:62-68 | the rate map has one key per stored pair, each holding the latest-dated rate |
| HomePage.ShownTotalIsTotal | app/home/page.tsx:91-93 | the shown total balance is the converted total of all transactions |
| HomePage.CountSplitsTransactions | app/home/page.tsx:176 | the count plus the later transactions is every transaction |
| HomePage.RecentTransactions | app/home/page.tsx:197-200 | at most 5 transactions on or before the date, latest first |
| HomePage.TakeOfSorted | app/home/page.tsx:199-200 | a prefix of the sorted list has the right length and stays sorted |
| HomePage.RecentAreLatest | app/home/page.tsx:197-200 | no transaction left out is later than one shown |
| TransactionsPage.Passes | app/transactions/page.tsx:108-119 | on or before the selected day, of the chosen type and stream, not before `dateFrom` and not after `dateTo`'s day; `FilteredTransactions` keeps exactly these |
| TransactionsPage.FilteredTransactions | app/transactions/page.tsx:107-122 | exactly the transactions passing the date, type, stream and range filters (both ends inclusive), latest first |
| TransactionsPage.NetOfFiltered | app/transactions/page.tsx:129-167 | total income minus total expense is the converted net of the filtered transactions |
| TransactionsPage.UnfilteredNetIsMoneyInHand | app/transactions/page.tsx:107-167 | with no filter set, that net is the money in hand at the selected date |
| TransactionsPage.Page.constructor | app/transactions/page.tsx:30-37 | the page starts with no filters and 10 rows |
| TransactionsPage.Page.Displayed | app/transactions/page.tsx:125-126 | the first min(displayCount, n) filtered rows; `hasMore` iff rows remain |
| TransactionsPage.Page.HasMore | app/transactions/page.tsx:126 | `displayCount` is below the number of filtered rows; `Page.Displayed` shows this holds iff rows remain unshown |
| TransactionsPage.Page.HandleLoadMore | app/transactions/page.tsx:102-104 | adds exactly 10 to the row count, so the shown list only grows |
| RepositoryContext.UsdTo | contexts/RepositoryContext.tsx:80-91 | a currency's USD rate: 1 for USD, none for a missing or zero rate |
| RepositoryContext.CrossRate | contexts/RepositoryContext.tsx:96-105 | an entry from the currency to the base, filed under `FROM_BASE_DATE`, whose rate times usdToFrom is usdToPrimary |
| RepositoryContext.EntriesForSpec | contexts/RepositoryContext.tsx:86-105 | each entry's currency is one of the codes, rated usdToPrimary / usdToFrom; every code other than the base with a rate gets one |
| RepositoryContext.CrossRateEntriesSpec | contexts/RepositoryContext.tsx:80-108 | nothing is derived without a base rate; otherwise each common currency except the base with a rate gets one consistent entry |
| RepositoryContext.RateIdsDiffer | contexts/RepositoryContext.tsx:99 | different currencies give different entry ids |
| RepositoryContext.EntriesForDistinct | contexts/RepositoryContext.tsx:86-105 | the derived entries have distinct ids `FROM_BASE_DATE` |
| RepositoryContext.PutRatesStores | contexts/RepositoryContext.tsx:107 | saving entries with distinct ids stores each of them |
| RepositoryContext.SavedRatesReadBack | contexts/RepositoryContext.tsx:86-108 | after the loop, `getRate(from, base, date)` returns each derived entry |
| RepositoryContext.SaveCrossRates | contexts/RepositoryContext.tsx:80-110 | the loop saves exactly the derived entries, in order |
| RepositoryContext.RefreshRates | contexts/RepositoryContext.tsx:53-118 | with settings, no rate into the primary currency dated today and a successful fetch, the derived cross rates are saved; otherwise the rates are unchanged; no other store changes |
| RepositoryContext.Initialise | contexts/RepositoryContext.tsx:47-125 | rates are saved only when there are settings, no fresh rate for the primary currency and the fetch succeeded; the automations run for today either way, creating exactly `RunLegs` over the stored automations in some order, with card usage moved as those creates move it |
| AutomationWizard.SelectedStreamCurrency | app/automation/page.tsx:98-102 | the first matching stream's currency (the target's for salary, the source's otherwise), else 'EGP' |
| AutomationWizard.Picked | app/automation/page.tsx:114-115 | an empty picker is absent |
| AutomationWizard.Payload | app/automation/page.tsx:104-129 | the saved record: the amount falls back to 0; endDate only when enabled and given; occurrences only when enabled; savingCircle only for saving_circle; isActive is true |
| AutomationWizard.Step2Ready | app/automation/page.tsx:180-182 | a name that is not blank after trimming and an amount; `Wizard.Next` leaves step 1 only then |
| AutomationWizard.Step3Ready | app/automation/page.tsx:184-189 | the streams each type needs: the target for salary, the source for installment and saving circle, both for transfer and cc_payment; `Wizard.Next` leaves steps 2 and 3 only then |
| AutomationWizard.LoadFields | app/automation/page.tsx:80-96 | the automation's fields, empty stream pickers for absent ids and day 1 for a missing or zero day; `EditRoundTrip` shows saving them gives the automation back |
| AutomationWizard.EditRoundTrip | app/automation/page.tsx:80-96 | loading an automation into the form and saving it unchanged gives back its fields, a missing or zero day becoming 1 |
| AutomationWizard.ReadyAutomationRuns | app/automation/page.tsx:184-189 | an automation saved past step 3 runs with 1 leg for salary and 2 for transfer and cc_payment, each in the wizard's currency |
| AutomationWizard.Wizard.constructor | app/automation/page.tsx:16-38 | the wizard starts closed on step 1 with the defaults |
| AutomationWizard.Wizard.OpenNew | app/automation/page.tsx:237 | the create button opens the reset wizard |
| AutomationWizard.Wizard.OpenForEdit | app/automation/page.tsx:148-152 | editing opens step 1 with the automation's fields and remembers it |
| AutomationWizard.Wizard.ResetForm | app/automation/page.tsx:60-78 | all defaults, step 1, no editing target |
| AutomationWizard.Wizard.Close | app/automation/page.tsx:246-249 | closing resets the wizard |
| AutomationWizard.Wizard.Next | app/automation/page.tsx:664-670 | moves one step on below step 4 when the step's check passes, and otherwise stays |
| AutomationWizard.Wizard.Back | app/automation/page.tsx:653-658 | moves one step back above step 1 |
| AutomationWizard.Wizard.EditBasics | app/automation/page.tsx:282-345 | step 1 changes only type, name and amount |
| AutomationWizard.Wizard.EditStreams | app/automation/page.tsx:346-462 | step 2 changes only the stream pickers |
| AutomationWizard.Wizard.EditSchedule | app/automation/page.tsx:463-586 | step 3 changes only the schedule fields |
| AutomationWizard.Wizard.EditConfirmation | app/automation/page.tsx:587-650 | step 4 changes only the confirmation flag |
| AutomationWizard.Wizard.HandleCreate | app/automation/page.tsx:104-146 | the request carries `Payload`, updating the edited automation or creating one; it only happens after both step checks passed; success resets and closes, failure leaves the wizard as it was |
| RecurrenceForm.Opened | components/forms/RecurrenceForm.tsx:18-26 | the rule's fields with the first stream when it has none, or a blank monthly expense on today for the first stream; `EditRoundTrip` shows saving them gives the rule back |
| RecurrenceForm.Data | components/forms/RecurrenceForm.tsx:47-71 | interval only for custom, day only for monthly with a value, description trimmed or absent |
| RecurrenceForm.Submit | components/forms/RecurrenceForm.tsx:31-80 | rejected iff the amount is missing or not positive, or a custom rule lacks a positive interval, with the source's messages; an update under initial.id, else a create with no tags |
| RecurrenceForm.SavedRuleProjects | components/forms/RecurrenceForm.tsx:34-71 | every saved rule has a positive amount and a positive step, so projection ends; a custom rule steps by exactly its interval |
| RecurrenceForm.EditRoundTrip | components/forms/RecurrenceForm.tsx:18-71 | reopening a valid rule and saving it unchanged updates it with the same rule, up to trimming and unused fields |
| TransactionForm.WithTag | components/forms/TransactionForm.tsx:29-35 | the trimmed input is appended iff it is non-empty and new |
| TransactionForm.WithoutTag | components/forms/TransactionForm.tsx:37-39 | exactly the other tags remain |
| TransactionForm.AddKeepsDistinct | components/forms/TransactionForm.tsx:29-35 | adding keeps the list free of repeats and adds only the trimmed input |
| TransactionForm.RemoveKeepsDistinct | components/forms/TransactionForm.tsx:37-39 | removing keeps the list free of repeats |
| TransactionForm.RemoveUndoesAdd | components/forms/TransactionForm.tsx:29-39 | removing a just-added tag restores the list |
| TransactionForm.FormCurrency | components/forms/TransactionForm.tsx:65 | the selected stream's currency, else 'USD' |
| TransactionForm.Form.constructor | components/forms/TransactionForm.tsx:18-25 | the fields of `initial`, or a blank expense today on the first stream |
| TransactionForm.Form.HandleAddTag | components/forms/TransactionForm.tsx:29-35 | the tags become `WithTag`; the input clears only when a tag was added |
| TransactionForm.Form.HandleRemoveTag | components/forms/TransactionForm.tsx:37-39 | the tags become `WithoutTag` |
| TransactionForm.Form.NewRecord | components/forms/TransactionForm.tsx:71-80 | a new transaction has no recurrence link, the form's tags and currency, and a trimmed or absent description |
| TransactionForm.Form.Changes | components/forms/TransactionForm.tsx:60-69 | an edit writes the tags and trimmed description and no recurrence link |
| TransactionForm.Form.HandleSubmit | components/forms/TransactionForm.tsx:41-89 | rejected with the source's message iff the amount is invalid or no stream is chosen, writing nothing; on success every tag is stored and the transaction is created or updated; on failure no transaction changes and the form is re-enabled; stored tags are never lost; a create moves the card usage of its stream as `TransactionRepository.Create` does, and nothing else changes any stream |
| TransactionForm.StoreTags | components/forms/TransactionForm.tsx:58 | every stored tag stays stored unchanged; when every `findOrCreate` succeeds, every name of the form is stored; nothing but tags changes |
| TransactionForm.Save | components/forms/TransactionForm.tsx:60-81 | fails iff the edited transaction is no longer stored, changing nothing; an edit replaces it with the patched record, a create stores the new record under a fresh id and moves its stream's card usage; an edit or failure leaves the streams unchanged; tags are untouched |
| StreamForm.SubmitAsWritten | components/forms/StreamForm.tsx:37-74 | as written, rejected iff the name is blank, and the card flag is never part of what is saved |
| StreamForm.AsWrittenCardNeverShowsCredit | components/forms/StreamForm.tsx:63-73 | as written, a stream created from the form never shows as a card |
| StreamForm.AsWrittenCardExample | components/forms/StreamForm.tsx:63-73 | as written, a card with limit 5000 under any name that needs no trimming (such as "Visa") is saved with that name and the limit but does not show as a card |
| StreamForm.Submit | components/forms/StreamForm.tsx:37-74 | corrected: rejected iff the name is blank; the name is trimmed; an edit sends the stored currency; credit fields only for a card, 0 when unparsable; the card flag is saved |
| StreamForm.CardShowsCredit | components/home/CreditSummaryCard.tsx:15 | corrected: a stream created with the card icon and a non-zero limit shows as a card, and only such a stream |
| StreamForm.Form.constructor | components/forms/StreamForm.tsx:26-35 | the fields of `initial`, or a blank USD bank stream; the card flag is on iff the icon is the card |
| StreamForm.Form.SelectIcon | components/forms/StreamForm.tsx:112-116 | the card icon turns the flag on, any other icon off |
| StreamForm.Form.HandleSubmit | components/forms/StreamForm.tsx:37-82 | refused iff the name is blank; with the corrected submission (see Findings) a create always succeeds and saves the card flag; an edit succeeds iff the stream exists and the currency matches the stored one; a failure re-enables the form |
| StreamForm.Save | components/forms/StreamForm.tsx:49-74 | a create always succeeds under a fresh id with the submitted name and card flag; an edit succeeds iff the stream is stored and the patch keeps its currency, and then stores the patched stream; a failure changes no stream |

## Left out

- The IndexedDB plumbing (open, upgrade, transactions) is not modelled: the store is a set of in-memory maps.
- `getAll` returns records in key order; the model's `findAll` and `ValuesOf` promise only the set of records and their count, not the order.
- The HTTP rate fetch and its fallback chain (`lib/currency/converter.ts`, `services/exchange-rate.service.ts`) are not part of this model. At start-up the fetch is a parameter (`FetchOutcome`): either the fetched USD rates and their date, or no rates.
- `exportToJSON` and `downloadFile` are not modelled: they are `JSON.stringify` and browser downloads.
- Date and number formatting in the CSV export (`format`, `toString`) come in as the `Formatters` parameter.
- The recurrence and automation repositories are plain get/put wrappers. The model uses the automation map of the store directly.
- Projections.WellFormed: custom rules with a negative interval are not expanded (`GenerateRecurrenceInstances` and the other recurrence members require `WellFormed`). On that input the source's `while` loop at lib/calculations/projections.ts:31 steps backwards and never ends. The recurrence form refuses an interval of 0 or less (components/forms/RecurrenceForm.tsx:39), so no saved rule has one.
- Projections.AutomationWellFormed: automations with a day below 1 are not expanded. For day 0 the source's loop never advances (`AutoNextAsWrittenStallsOnDayZero`). The wizard defaults the day to 1, and an edit turns 0 into 1.
- A NaN `schedule.day` is treated like an absent one. Both produce no projected date and no run.
- Time of day and time zones are not modelled. Dates are whole calendar days, so `dateTo` "through 23:59:59.999" is inclusion of that day.
- The cache's ISO date strings are compared by code point, which orders `YYYY-MM-DD` strings the way `localeCompare` does.
- Floating point is not modelled: amounts and rates are reals.
  - JavaScript `Infinity` and `NaN` from dividing by a zero inverse rate are not modelled.
  - The cross-rate derivation skips a zero or missing rate, as the source does.
- Balance.Convert: the rate table holds no zero rate (`Rates`). A zero direct rate, which the source multiplies by to give 0, is therefore not modelled either. The conversion lemmas are proved for non-zero stored rates.
- Projections.ExpandAutomation: both loops step with the corrected `AutoNext` (the month's last day when `day` does not exist), not with `addMonths` followed by `new Date(y, m, min(day, 31))`, which overflows into the month after (Findings, first row). For a day of 28 or less the two give the same dates (`AutomationDatesAgreeUpTo28`). For days 29 to 31 the model's dates are the intended ones, not the program's.
- Projections.GenerateAutomationInstances: computes the corrected expander, with the same difference for days 29 to 31.
- Projections.AutomationInstancesExact: characterises the instances on the corrected chain; for days 29 to 31 the program's instances are not characterised.
- Projections.AutomationProjections: a sorted permutation of the corrected instances, with the same difference for days 29 to 31.
- Projections.ProjectionsWithAutomations: merges with the corrected automation instances, with the same difference for days 29 to 31.
- StreamForm.Form.HandleSubmit: saves through the corrected `Submit`, so the stored stream carries `isCreditCard`. The program's payload omits the flag; that behaviour is `SubmitAsWritten`, with its consequence proved in `AsWrittenCardNeverShowsCredit` (Findings, second row).
- Balance.CalculateBalanceOverTime: an interval of zero or less with `startDate` on or before `endDate` is excluded by the precondition. In the source the loop on that input never gets past `endDate`, so it does not end.
- AutomationService.RunAutomationsForDate: a failure is modelled only before an automation's first write (the `failing` set): nothing is created and `lastRunAt` is unchanged. A failure between its two legs is not modelled.
- AutomationService.InferCurrency: the optional stream repository is the `withStreamRepo` flag.
- TransactionForm.Form.HandleSubmit: `Promise.all` over the tags is modelled as one `findOrCreate` after another. Concurrent creation of the same new tag is not modelled.
- The in-place sorts are modelled on `seq`:
  - the sort in `getLatestRate`;
  - the `ratesList.sort` on the home page;
  - the stream and transaction sorts.

  Each is proved to be a permutation sorted by the comparator. Aliasing of the caller's array is not modelled, nor the order among equal keys (JavaScript's sort is stable; the model's order among ties is not pinned).
- `creditLimit: null` versus absent is not distinguished: both are `None`. The repository's `typeof creditLimit !== 'undefined'` test is therefore read as "has a limit".
- installment and saving_circle have no behaviour in the projector or the runner. The wizard saves the saving-circle fields, and nothing in the model reads them.
- The wizard disables the target-stream button equal to the source stream. That rule is presentation and is not modelled.
- Field setters of the forms, other than those with rules (tags, icon, the wizard's steps), are not modelled. Neither are alerts, logging, `isSubmitting` of the recurrence form, or implicit form submission by the Enter key.
- `calculateBalanceOverTime` advances one `Date` object in place with `setDate`. The model computes a fresh date per point.
- The description of the system says that the credit-card liability is subtracted from the overall balance. The code does not do this: the home total is money in hand plus projected money (`HomePage.ShownTotalIsTotal`). The model follows the code.
- The fallback currencies differ between the description and the code. The code falls back to 'USD' in the projector and the transaction form, and to 'EGP' in the runner and the wizard. The model follows the code.

## Findings

| source | as written | input that shows it | evidently intended | confidence | as-written member | corrected member |
|---|---|---|---|---|---|---|
| lib/calculations/projections.ts:286-289 | after `addMonths(current, 1)` the day is rebuilt with `new Date(y, m, min(day, 31))`, which overflows past a short month's end | a monthly automation on day 31 projected from 31 January 2023: the next date is 3 March 2023, so February has no occurrence and later dates drift | one occurrence per month, on `day` or the month's last day (the rule the recurrence engine follows) | not executed | Projections.AutoNextAsWrittenSkipsFebruary | Projections.AutomationDatesMonthly |
| components/forms/StreamForm.tsx:63-73 | the saved record never includes `isCreditCard`, while the stream list and credit summary only treat streams with that flag as cards | create a stream with the card icon and limit 5000: the record has the limit but no flag, so no available credit is ever shown | the flag the form keeps (true iff the card icon) is saved with the credit fields | not executed | StreamForm.AsWrittenCardNeverShowsCredit | StreamForm.CardShowsCredit |
