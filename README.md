# TrackingApp medication dose scheduler, in Dafny

This project models the medication side of TrackingApp, a .NET MAUI tracker for a
baby's, an adult's or a pet's food, medication and appointments, and proves
properties of that model. It covers:

- the medication, dose and unit models: the frequency in minutes, the display
  labels, the dose status classifier and the unit label table;
- the dose scheduler in `DataService`, kept as a class whose sequence fields stand
  for its observable collections:
  - generation of a medication's pending doses from its first dose;
  - recalculation from the latest administration, or from the "catch-up" slot
    when there is none;
  - regeneration of every medication, and the start-up sync with the history;
  - dose confirmation and re-timing;
  - the combined timeline of administered and pending events;
  - day grouping;
  - deletion of a medication;
- the catch-up helper `CalculateNextDoseFromFirstDose` of the scheduler's tests;
- the two view-models:
  - the main screen: frequency validation, date ranges, filtered lists, the
    medication selection and confirming a dose;
  - the history screen: its date ranges, filter choices and the three filtered
    lists.

Instants are whole seconds counted from 1 January of year 1 (`DateTime.MinValue`
is 0). `DateTime.Now` is always a parameter `now`, and "today" is `Date(now)`.

Files and modules:

- `Foundation.dfy`:
  - `Wrappers`: `Option`, `Result`;
  - `Time`: instants, dates, ranges;
  - `Sequences`: LINQ `Where` as `Filter`, the stable `OrderBy` as `SortByKey`, and
    `Distinct().OrderBy()` as `SortedDistinct`.
- `Units.dfy`, `Medications.dfy`, `Doses.dfy` and `Records.dfy`: the models.
- `NextDose.dfy`: the catch-up and roll-forward start rules.
- `DoseSchedule.dfy`: the generator loop's emitted times.
- `DataService.dfy`: the scheduler class and its lemmas.
- `MainViewModel.dfy` and `HistoryViewModel.dfy`: the view-models.

## Model

| member | source | states |
|---|---|---|
| Units.UnitForDisplayText | TrackingApp/Models/Unit.cs:22-34 | Inverse of `GetDisplayText`: a unit it returns has that label, and when it returns none, no unit has that label. |
| Units.DisplayTextRoundTrip | TrackingApp/Models/Unit.cs:22-34 | Every unit's label maps back to that unit. |
| Units.DisplayTextInjective | TrackingApp/Models/Unit.cs:24-32 | Two units with the same label are the same unit, so the `ToString()` fallback arm is never reached for a declared value. |
| Units.GetAllUnits | TrackingApp/Models/Unit.cs:39-47 | Six pairwise distinct units, Ounce first. |
| Units.AllUnitsListed | TrackingApp/Models/Unit.cs:39-47 | Every declared unit is in the list. |
| Medications.NewMedication | TrackingApp/Models/Medication.cs:8-15 | A fresh medication has id 0, empty name, dose and profile, and zero frequency. |
| Medications.FrequencyNormalisation | TrackingApp/Models/Medication.cs:32-38 | With hours ≥ 0, minutes in [0, 59] and not both zero, the total is positive, and hours and minutes are its quotient and remainder by 60. This holds on unbounded integers, that is up to `int` width (see Left out). |
| Medications.FrequencyExamples | TrackingApp/Models/Medication.cs:32-38 | 6 h gives 360, 2 h 30 gives 150, 45 min gives 45, 1 h 45 gives 105, and 24 h gives 1440. |
| Medications.NatToStringRoundTrip | TrackingApp/Models/Medication.cs:23 | The decimal digits interpolated for a count read back as that count. |
| Medications.FrequencyLabelShape | TrackingApp/Models/Medication.cs:22-27 | The label ends in 'h' exactly when there are hours and no minutes; with hours it starts with their digits and "h". |
| Medications.LabelHead | TrackingApp/Models/Medication.cs:22-27 | A well-formed label starts with the digits of the hours (of the minutes when there are none), followed by 'h' (by 'm'). |
| Medications.FrequencyLabelInjective | TrackingApp/Models/Medication.cs:22-27 | Two well-formed frequencies with equal labels are equal. |
| Medications.FrequencyLabelExamples | TrackingApp/Models/Medication.cs:22-27 | 4 h 30 gives "4h 30min", 12 h gives "12h", and 30 min gives "30min". |
| Medications.DisplayTextWithHoursAndMinutes | TrackingApp/Models/Medication.cs:22-23 | "Paracetamol (500mg) cada 4h 30min". |
| Medications.DisplayTextWithWholeHours | TrackingApp/Models/Medication.cs:24-25 | "Aspirina (100mg) cada 12h". |
| Medications.DisplayTextWithMinutesOnly | TrackingApp/Models/Medication.cs:26-27 | "Gotas (5ml) cada 30min". |
| Doses.NewDose | TrackingApp/Models/MedicationDose.cs:8-18 | A fresh dose is unconfirmed and unedited, with no actual time. |
| Doses.PendingDose | TrackingApp/Services/DataService.cs:202-209 | A generated dose has the medication's id and the emitted time, and is unconfirmed, unedited and without actual time. |
| Doses.StatusCases | TrackingApp/Models/MedicationDose.cs:21-34 | Each of the four statuses holds exactly under its condition: "Confirmado" iff confirmed; otherwise "Atrasado" iff more than 30 min late, "Próximo" iff within [−30, 30) min, and "Programado" iff 30 min or more ahead. |
| Doses.StatusAdvancesWithTime | TrackingApp/Models/MedicationDose.cs:25-32 | As the clock advances, a dose's status never moves back a stage. |
| Doses.StatusLabelInjective | TrackingApp/Models/MedicationDose.cs:25-32 | Distinct statuses have distinct labels. |
| Doses.ConfirmEffect | TrackingApp/Services/DataService.cs:252-267 | A confirmed dose has status "Confirmado" at any time and keeps its id, medication, schedule and edit flag. A dose that was pending shows the scheduled time or `now`, as chosen. |
| Doses.ConfirmIdempotent | TrackingApp/Services/DataService.cs:254-258 | Confirming an already confirmed dose changes nothing. |
| Doses.RetimeEffect | TrackingApp/Services/DataService.cs:366-373 | A re-timed dose shows the new time and has the status of a fresh pending dose at that time. Re-timing twice keeps only the last time. |
| NextDose.CeilDiv | TrackingApp.Tests/Services/NextDoseCalculationEdgeCasesTests.cs:144 | `Math.Ceiling(a / b)` on integers: the least q with q·b ≥ a. |
| NextDose.CalculateNextDoseFromFirstDose | TrackingApp.Tests/Services/NextDoseCalculationEdgeCasesTests.cs:132-150 | A first dose not before `current` is returned unchanged. Otherwise the result is at or after `current`, less than one interval after it, and a whole number of intervals after the first dose. |
| NextDose.NextDoseIsEarliestSlot | TrackingApp.Tests/Services/NextDoseCalculationEdgeCasesTests.cs:141-147 | No slot `first + k·f` at or after `current` is earlier than the result. |
| NextDose.NextDoseUnique | TrackingApp.Tests/Services/NextDoseCalculationEdgeCasesTests.cs:141-147 | Any grid slot in [current, current + f) is the result. |
| NextDose.CatchUpExamples | TrackingApp.Tests/Services/NextDoseCalculationEdgeCasesTests.cs:10-129 | The five fixtures: 08:00/8 h/23:00 gives 00:00 next day; 00:05/8 h/23:00 gives 00:05 next day after 3 elapsed doses; yesterday 15:00/6 h/10:00 gives 15:00; a future first dose is kept; 10:00/4 h 30/14:45 gives 19:00. |
| NextDose.RollForward | TrackingApp/Services/DataService.cs:182-190 | The generator's start is never before `now`. A future first dose is kept; a past one moves to its same clock time, less than a day after `now`. |
| NextDose.RollForwardIsDailyCatchUp | TrackingApp/Services/DataService.cs:182-190 | Rolling forward equals the catch-up rule with a 1440-minute interval. |
| DoseSchedule.ScheduleSlots | TrackingApp/Services/DataService.cs:196-218 | The k-th emitted time is exactly `start + k·f`, with no drift, and slot k is emitted iff it is strictly before the horizon. |
| DoseSchedule.ScheduleOrdered | TrackingApp/Services/DataService.cs:196-218 | Emitted times are strictly increasing and lie in [start, horizon); there are none iff start is not before the horizon. |
| DoseSchedule.ScheduleLength | TrackingApp/Services/DataService.cs:338-361 | The loop emits ⌈(horizon − start)/f⌉ doses. |
| DoseSchedule.InclusiveIsExclusiveOneLater | TrackingApp.Tests/Services/DataServiceTests.cs:29-36 | The test's `<=` loop emits what the scheduler's `<` loop emits with the horizon one second later. |
| DoseSchedule.InclusiveAddsBoundarySlot | TrackingApp.Tests/Services/DataServiceTests.cs:29-36 | When the horizon is a slot, the `<=` loop emits exactly one dose more than the `<` loop: the dose at the horizon. |
| DoseSchedule.BoundaryExample | TrackingApp.Tests/Services/DataServiceTests.cs:22-53 | Last dose 03:00, every 6 h, one day: the test's loop gives 09:00, 15:00, 21:00 and 03:00 next day; the scheduler's loop gives only the first three. |
| DoseSchedule.PendingDosesShape | TrackingApp/Services/DataService.cs:202-209 | Every generated dose belongs to the medication, is pending and unedited, and carries an emitted time. |
| DataServices.TimesOfPendingDoses | TrackingApp/Services/DataService.cs:200-218 | The scheduled times of the generated doses are the emitted times. |
| DataServices.ReplacePendingFrame | TrackingApp/Services/DataService.cs:144-152 | After replacing medication a's pending doses, its pending doses are exactly the new ones. Its non-pending doses, all confirmed doses, and every other medication's doses are unchanged and in order. |
| DataServices.FindMedication | TrackingApp/Services/DataService.cs:276-277 | `FirstOrDefault` by id: a found medication is in the list with that id, and none is found iff no medication has it. |
| DataServices.FindUnique | TrackingApp/Services/DataService.cs:276 | With distinct ids, looking up a listed medication's id finds that medication. |
| DataServices.LatestAdministered | TrackingApp/Services/DataService.cs:282-285 | None iff the medication has no record. Otherwise it is some record's time and no record of the medication is later. |
| DataServices.LatestFirstMembers | TrackingApp/Services/DataService.cs:282-284 | The descending list holds exactly the medication's records, latest first. |
| DataServices.LatestIsHeadOfDescendingOrder | TrackingApp/Services/DataService.cs:282-285 | The head of `Where(…).OrderByDescending(…)` carries the latest administration; the list is empty iff there is none. |
| DataServices.HeadOfDescendingIsLatest | TrackingApp/Services/DataService.cs:282-285 | Any list holding exactly a medication's records, with its head latest, has the latest administration at its head. |
| DataServices.FirstDoseRecord | TrackingApp/Services/DataService.cs:162-171 | The record of a first dose already taken carries the medication, its name and dose, the first dose time and the current profile. |
| DataServices.GenerationStartFacts | TrackingApp/Services/DataService.cs:160-191 | With a first dose taken, generation starts one interval after it. Otherwise it starts at or after `now`: at the first dose while that is ahead, else at its clock time less than a day after `now`. |
| DataServices.RecalculationStartFacts | TrackingApp/Services/DataService.cs:281-321 | With history, recalculation starts one interval after the latest administration. Without it, it starts at the first dose while that is ahead, else at the earliest slot of its grid at or after `now`. |
| DataServices.CollectHistoryEvents | TrackingApp/Services/DataService.cs:517-534 | The loop builds exactly the history events. |
| DataServices.AppendDoseEvents | TrackingApp/Services/DataService.cs:538-554 | The loop appends exactly the scheduled events of the pending doses. |
| DataServices.CombinedEventsContents | TrackingApp/Services/DataService.cs:517-563 | The timeline has one confirmed history event per record and one unconfirmed event per pending dose. Confirmed doses add nothing, nothing else appears, and it is sorted latest first. |
| DataServices.GroupByDayFlatten | TrackingApp/Services/DataService.cs:381-383 | Concatenating the day groups gives back the sorted doses, and the first group is the first dose's day. |
| DataServices.GroupByDayWellGrouped | TrackingApp/Services/DataService.cs:381-383 | Over doses sorted by time, each group holds doses of its own day and the days strictly increase. |
| DataServices.ConfirmShrinksPending | TrackingApp/Services/DataService.cs:252-267 | Confirming a pending dose removes exactly one dose from the pending list; confirming a confirmed dose changes nothing. The confirmed list gains that dose in its place. |
| DataServices.RetimedDoseIsDiscardedByRegeneration | TrackingApp/Services/DataService.cs:366-373 | A re-timed dose is pending again, so the next regeneration of its medication removes it. |
| DataServices.DeleteMedicationLeavesNoTrace | TrackingApp/Services/DataService.cs:398-421 | After deletion, no dose or record refers to the medication, other medications' doses are unchanged and in order. When listed, the medication list loses one element and keeps every other medication. |
| DataServices.RegenerationDone | TrackingApp/Services/DataService.cs:224-250 | After the loop over all medications, doses of unlisted medications are unchanged. With distinct ids, each medication's pending times are its regenerated schedule. |
| DataServices.SyncDone | TrackingApp/Services/DataService.cs:87-106 | After the sync loop, medications without history keep their doses. With distinct ids, each medication with history has its three-day recalculated schedule pending. |
| DataServices.DataService.constructor | TrackingApp/Services/DataService.cs:12-19 | Empty collections, profile "Bebé", ids from 1. |
| DataServices.DataService.RebuildCombinedEvents | TrackingApp/Services/DataService.cs:513-570 | The timeline becomes `CombinedEvents` of the current state; nothing else changes. |
| DataServices.DataService.RemovePendingDoses | TrackingApp/Services/DataService.cs:144-152 | Exactly the medication's unconfirmed doses are removed, in place order. |
| DataServices.DataService.AppendSchedule | TrackingApp/Services/DataService.cs:196-218 | The loop appends `PendingDoses` of the emitted times and advances the id counter by their number. |
| DataServices.DataService.GenerateDosesForMedication | TrackingApp/Services/DataService.cs:139-222 | The medication's pending doses become its generated schedule. With a first dose taken, one record goes to the front of the history. The timeline is rebuilt. |
| DataServices.DataService.RecalculateNextDoses | TrackingApp/Services/DataService.cs:274-364 | An unknown id changes nothing. A known id's pending doses become the recalculated schedule up to `now + days`; history and timeline are untouched. |
| DataServices.DataService.AddMedication | TrackingApp/Services/DataService.cs:131-137 | The medication, stamped with the profile and its new id, is appended, and its pending doses become its generated schedule with fresh ids. With a first dose taken, that dose's record goes to the front of the history with the next record id; otherwise the history is unchanged. The timeline is rebuilt, and positive frequencies stay positive. |
| DataServices.DataService.UpdateMedication | TrackingApp/Services/DataService.cs:423-434 | The medication is replaced in place, doses and history are untouched, and the timeline is rebuilt. |
| DataServices.DataService.SaveMedicationHistory | TrackingApp/Services/DataService.cs:460-463 | The record gets the next id; no collection changes. |
| DataServices.DataService.RegenerateDoses | TrackingApp/Services/DataService.cs:224-250 | Confirmed doses, history and unlisted medications' doses are unchanged. With distinct ids, every medication ends with exactly its regenerated schedule pending. The timeline is unchanged when every medication has history, and is current when the last one has none. |
| DataServices.DataService.SyncDosesWithHistory | TrackingApp/Services/DataService.cs:87-106 | Confirmed doses and medications without history are unchanged. With distinct ids, each medication with history ends with its three-day recalculated schedule pending. |
| DataServices.DataService.ConfirmDose | TrackingApp/Services/DataService.cs:252-267 | Only the dose at the index changes, by `Confirm`. |
| DataServices.DataService.EditDoseTime | TrackingApp/Services/DataService.cs:366-373 | Only the dose at the index changes, by `Retime`. |
| DataServices.DataService.DeleteMedication | TrackingApp/Services/DataService.cs:398-421 | The medication's records and doses are filtered out, and its first occurrence leaves the list. |
| DataServices.DataService.GetDosesGroupedByDay | TrackingApp/Services/DataService.cs:375-384 | The groups are well formed and sorted by time, and hold exactly the selected medication's doses (all doses when none is selected), each once. |
| MainViewModels.ValidateFrequency | TrackingApp/ViewModels/MainViewModel.cs:360-387 | Accepts iff both fields parse or are blank, hours ≥ 0, minutes in [0, 59] and not both zero; an accepted frequency is positive up to `int` width (see Left out). |
| MainViewModels.ValidateEditedFrequency | TrackingApp/ViewModels/MainViewModel.cs:505-527 | As written: accepts iff both fields parse or are blank, minutes in [0, 59] and not both zero, with no bound on the hours. |
| MainViewModels.EditedValidationDiffersOnlyOnNegativeHours | TrackingApp/ViewModels/MainViewModel.cs:505-527 | The edit check agrees with the add check except on negative hours, which only the add check refuses. |
| MainViewModels.EditedFrequencyAdmitsNegativeHours | TrackingApp/ViewModels/MainViewModel.cs:508 | "-1" hours and "30" minutes pass the edit check, giving a frequency of −30 minutes. |
| MainViewModels.NonPositiveStepNeverReachesHorizon | TrackingApp/Services/DataService.cs:200-218 | With a non-positive step, no iterate of the generator loop reaches a later horizon. With unbounded instants the loop does not end; in the program it inserts doses until `DateTime` arithmetic passes `MinValue` and throws. |
| MainViewModels.TodayRangeIsToday | TrackingApp/ViewModels/MainViewModel.cs:179 | "Hoy" holds exactly today's instants. |
| MainViewModels.WeekRangeIsLastSevenDays | TrackingApp/ViewModels/MainViewModel.cs:180 | "Semana" holds exactly the instants from midnight seven days ago up to `now`. |
| MainViewModels.CustomRangeIsWholeDays | TrackingApp/ViewModels/MainViewModel.cs:185 | "Personalizado" holds exactly the instants from the start date through the whole end date. |
| MainViewModels.UnlistedOptionIsFullRange | TrackingApp/ViewModels/MainViewModel.cs:186 | Any unlisted option, including the initial "Esta semana", gives (MinValue, MaxValue). |
| MainViewModels.FilteredFoodEntries | TrackingApp/ViewModels/MainViewModel.cs:152-160 | Exactly the entries whose time is in the range. |
| MainViewModels.FilteredMedications | TrackingApp/ViewModels/MainViewModel.cs:162-170 | Exactly the medications whose first dose is in the range. |
| MainViewModels.FilteredAppointments | TrackingApp/ViewModels/MainViewModel.cs:865-886 | Exactly the appointments in the range, earliest first. |
| MainViewModels.FilteredCombinedEvents | TrackingApp/ViewModels/MainViewModel.cs:734-760 | Exactly the non-history, unconfirmed events in the range, of the selected medication when one is set; latest first and each as often as it occurs. |
| MainViewModels.PendingListShowsPendingDoses | TrackingApp/ViewModels/MainViewModel.cs:744-755 | Over a rebuilt timeline, the list shows each pending dose in the range (of the selected medication) and nothing else. |
| MainViewModels.FilteredMedicationHistory | TrackingApp/ViewModels/MainViewModel.cs:696-714 | Exactly the records administered up to `now`, latest first; the date range plays no part. |
| MainViewModels.ConfirmationRecord | TrackingApp/ViewModels/MainViewModel.cs:635-642 | The record carries the dose's medication, its name and dose, and the actual time, or `now` if there is none. |
| MainViewModels.ConfirmationAnchorsNextSchedule | TrackingApp/ViewModels/MainViewModel.cs:630-645 | Confirming a pending dose records it at `now`. The medication then has history, and its next recalculation starts at least one interval after that record. |
| MainViewModels.MainViewModel.constructor | TrackingApp/ViewModels/MainViewModel.cs:21-57 | Defaults "Bebé", 3 days and "Esta semana"; both custom dates today; the first medication selected when there is one. |
| MainViewModels.MainViewModel.SetSelectedUserType | TrackingApp/ViewModels/MainViewModel.cs:63-72 | The service's profile follows the selection. |
| MainViewModels.MainViewModel.SetSelectedDays | TrackingApp/ViewModels/MainViewModel.cs:78-88 | Every schedule is regenerated for the new number of days: confirmed doses and unlisted medications' doses are kept, and with distinct ids each medication has exactly its regenerated schedule pending. The timeline follows `RegenerateDoses`. |
| MainViewModels.MainViewModel.SetSelectedMedication | TrackingApp/ViewModels/MainViewModel.cs:90-103 | The selected id follows the selected medication. |
| MainViewModels.MainViewModel.UpdateSelectedMedication | TrackingApp/ViewModels/MainViewModel.cs:566-579 | With medications and no selection, it selects the first. With no medications it clears the selection; otherwise the selection is kept. |
| MainViewModels.MainViewModel.SetSelectedHistoryRange | TrackingApp/ViewModels/MainViewModel.cs:132-147 | The range option is set and the custom dates are kept. |
| MainViewModels.MainViewModel.CompleteCustomRange | TrackingApp/ViewModels/MainViewModel.cs:581-625 | Two dates in order become the custom range. A blank or malformed date, or an end before the start, resets the option to "Hoy" and keeps the dates. |
| MainViewModels.MainViewModel.AddMedication | TrackingApp/ViewModels/MainViewModel.cs:351-411 | With a name, a dose and an accepted frequency, the medication (first dose today at the chosen time) is appended. It gets a pending schedule of the selected number of days, with fresh ids, and the timeline is rebuilt. It is selected when nothing was. Otherwise nothing changes. The history never changes, and every frequency stays positive up to `int` width (see Left out). |
| MainViewModels.MainViewModel.EditMedication | TrackingApp/ViewModels/MainViewModel.cs:473-539 | Corrected: an accepted edit replaces name, dose and frequency and rebuilds the timeline; a refused one changes nothing. Doses, history and ids are never touched, and every frequency stays positive up to `int` width (see Left out). |
| MainViewModels.MainViewModel.ConfirmDose | TrackingApp/ViewModels/MainViewModel.cs:627-649 | The dose is confirmed at `now`. When its medication is known, a record with the next record id goes to the front of the history, also for a dose confirmed earlier. The timeline and the dose ids are unchanged. |
| HistoryViewModels.RangeVersionsAgreeElsewhere | TrackingApp/ViewModels/HistoryViewModel.cs:316-331 | The as-written and the corrected ranges share every start, and differ only for the previous month and a custom range. |
| HistoryViewModels.LastMinuteOfEndDayExcluded | TrackingApp/ViewModels/HistoryViewModel.cs:327-328 | A record at 23:59:30 on a custom range's end date is outside the range as written and inside the corrected one; the previous month loses its last seconds the same way. |
| HistoryViewModels.RecentRangesAreWholeDays | TrackingApp/ViewModels/HistoryViewModel.cs:319-325 | "Hoy", "Últimos 7 días" and "Últimos 30 días" hold exactly the instants from midnight n days ago through the end of today. |
| HistoryViewModels.PreviousMonthIsWholeMonth | TrackingApp/ViewModels/HistoryViewModel.cs:327 | Corrected "Mes anterior" holds exactly the instants from the previous month's start up to this month's. |
| HistoryViewModels.CustomHistoryRange | TrackingApp/ViewModels/HistoryViewModel.cs:328-329 | A complete custom range holds the start date through the whole end date; an incomplete one is the full range. |
| HistoryViewModels.MedicationHistoryViewShows | TrackingApp/ViewModels/HistoryViewModel.cs:221-243 | The list holds exactly the records passing the name, profile and date filters, with their multiplicity, latest first. |
| HistoryViewModels.FoodViewShows | TrackingApp/ViewModels/HistoryViewModel.cs:246-273 | The list holds exactly the entries passing the type, unit, profile and date filters, with their multiplicity, latest first. |
| HistoryViewModels.AppointmentViewShows | TrackingApp/ViewModels/HistoryViewModel.cs:276-304 | Empty before a period is chosen. Afterwards it holds exactly the appointments passing the profile and date filters, latest first. |
| HistoryViewModels.DeadUnitOptionsShowNothing | TrackingApp/ViewModels/HistoryViewModel.cs:256-259 | "ml", "unidades", "cucharadas" and "tazas" match no unit label, so they empty the food list; "g" shows only grams. |
| HistoryViewModels.ChildProfileShowsNothing | TrackingApp/ViewModels/HistoryViewModel.cs:139 | Records made under the main screen's profiles never match "Niño". |
| HistoryViewModels.NoPeriodShowsNoAppointments | TrackingApp/ViewModels/HistoryViewModel.cs:280-283 | Before a period is chosen, no appointment is listed, while records and food entries are filtered only by their other filters. |
| HistoryViewModels.MedicationChoicesAreRecordedNames | TrackingApp/ViewModels/HistoryViewModel.cs:195-204 | The choices after "Todos" are exactly the recorded names, each once. |
| HistoryViewModels.FoodTypeChoicesAreRecordedTypes | TrackingApp/ViewModels/HistoryViewModel.cs:205-216 | The choices after "Todos" are exactly the recorded food types, each once. |
| HistoryViewModels.ChoiceSelectsItsRecords | TrackingApp/ViewModels/HistoryViewModel.cs:225-228 | Choosing a name shows exactly that medication's records within the profile and period. |
| HistoryViewModels.FilterMedicationHistory | TrackingApp/ViewModels/HistoryViewModel.cs:221-243 | The staged `Where` pipeline and the refill loop yield the medication view. |
| HistoryViewModels.FilterFoodHistory | TrackingApp/ViewModels/HistoryViewModel.cs:246-273 | The staged pipeline and loop yield the food view. |
| HistoryViewModels.FilterAppointments | TrackingApp/ViewModels/HistoryViewModel.cs:276-304 | The staged pipeline and loop yield the appointment view. |
| HistoryViewModels.ConfirmedStayConfirmed | TrackingApp/ViewModels/HistoryViewModel.cs:286-303 | From a pool of confirmed appointments, only confirmed appointments are shown. |
| HistoryViewModels.OnlyConfirmedKept | TrackingApp/ViewModels/HistoryViewModel.cs:183 | The appointment pool holds only confirmed appointments. |
| HistoryViewModels.HistoryViewModel.constructor | TrackingApp/ViewModels/HistoryViewModel.cs:125-161 | Filters at "Todos" and no period; the lists are loaded and filtered, and only confirmed appointments are kept. Lists are filtered with the corrected date range (`HistoryDateRange`). |
| HistoryViewModels.HistoryViewModel.LoadHistory | TrackingApp/ViewModels/HistoryViewModel.cs:163-193 | Records and foods are sorted latest first, and only confirmed appointments are kept. The choices are rebuilt, the lists refiltered, and the filters kept. Lists are filtered with the corrected date range (`HistoryDateRange`). |
| HistoryViewModels.HistoryViewModel.ReplaceRecords | TrackingApp/ViewModels/HistoryViewModel.cs:166-186 | The three pools are replaced (sorted, confirmed only) and the appointment list is cleared. |
| HistoryViewModels.HistoryViewModel.SortRecords | TrackingApp/ViewModels/HistoryViewModel.cs:166-179 | The held records and food entries are the loaded ones, latest first (stable `OrderByDescending`, stable by construction of the insertion sort; `Sequences.SortByKeySorts` proves the order and the permutation). |
| HistoryViewModels.HistoryViewModel.KeepConfirmedAppointments | TrackingApp/ViewModels/HistoryViewModel.cs:182-186 | Exactly the confirmed appointments are held, each one confirmed, and none is shown. |
| HistoryViewModels.HistoryViewModel.UpdateAvailableFilters | TrackingApp/ViewModels/HistoryViewModel.cs:195-217 | The choices become "Todos" followed by the sorted distinct names and food types. |
| HistoryViewModels.HistoryViewModel.ApplyFilters | TrackingApp/ViewModels/HistoryViewModel.cs:219-314 | The three lists become their views under the current filters and range. Lists are filtered with the corrected date range (`HistoryDateRange`). |
| HistoryViewModels.HistoryViewModel.SetMedicationFilter | TrackingApp/ViewModels/HistoryViewModel.cs:55-64 | The filter is set and the lists are refiltered. Lists are filtered with the corrected date range (`HistoryDateRange`). |
| HistoryViewModels.HistoryViewModel.SetFoodTypeFilter | TrackingApp/ViewModels/HistoryViewModel.cs:66-75 | The filter is set and the lists are refiltered. Lists are filtered with the corrected date range (`HistoryDateRange`). |
| HistoryViewModels.HistoryViewModel.SetUnitFilter | TrackingApp/ViewModels/HistoryViewModel.cs:77-86 | The filter is set and the lists are refiltered. Lists are filtered with the corrected date range (`HistoryDateRange`). |
| HistoryViewModels.HistoryViewModel.SetProfileFilter | TrackingApp/ViewModels/HistoryViewModel.cs:88-97 | The filter is set and the lists are refiltered. Lists are filtered with the corrected date range (`HistoryDateRange`). |
| HistoryViewModels.HistoryViewModel.SetDateRangeFilter | TrackingApp/ViewModels/HistoryViewModel.cs:99-115 | The option is set. Any option but "Rango personalizado" refilters the lists; that one waits for the date prompts. Lists are filtered with the corrected date range (`HistoryDateRange`). |
| HistoryViewModels.HistoryViewModel.CompleteCustomRange | TrackingApp/ViewModels/HistoryViewModel.cs:333-385 | Two dates in order become the range and the lists are refiltered. A blank or malformed date, or an end before the start, reverts the option to "Todo el historial". Lists are filtered with the corrected date range (`HistoryDateRange`). |
| Sequences.Filter | TrackingApp/Services/DataService.cs:144 | LINQ `Where(…).ToList()`: keeps exactly the elements satisfying the predicate, in order. |
| Sequences.Retain | TrackingApp/Services/DataService.cs:144 | The loop computes `Filter`. |
| Sequences.FilterNarrow | TrackingApp/ViewModels/HistoryViewModel.cs:225-238 | A `Where` after a weaker `Where` is the stronger one alone. |
| Sequences.SortByKeySorts | TrackingApp/Services/DataService.cs:558 | `OrderByDescending` (key negated) returns a permutation of its input, sorted. |
| Sequences.SortedDistinctSpec | TrackingApp/ViewModels/HistoryViewModel.cs:198 | `Distinct().OrderBy()` yields a strictly ascending list with exactly the input's elements. |
| Sequences.RemoveFirst | TrackingApp/Services/DataService.cs:420 | `Collection.Remove`: removes one occurrence when present, and changes nothing otherwise. |

## Left out

- SQLite persistence (`DatabaseService`) is replaced by the in-memory collections. Database-assigned ids are the counters `nextDoseId` and `nextHistoryId`, or an `assignedId` parameter.
- async/await, the `DataService.Instance` singleton and the `CollectionChanged` and `PropertyChanged` cascades are left out. Every operation is one synchronous step, and the timeline is rebuilt only where the code calls `RebuildCombinedEvents`.
- The reload of all doses from the database at the end of `SyncDosesWithHistoryAsync` is left out. The in-memory doses after the loop stand for it.
- Dialogs and parsing are taken as already-parsed inputs (`FieldInput`, `DateInput`, a clock time in seconds). This covers `DisplayAlert`, `DisplayPromptAsync`, `int.TryParse` and `DateTime.TryParseExact("dd/MM/yyyy")`.
- `MainViewModels.IsWhiteSpace`: covers only space, tab, line feed and carriage return, not every Unicode white-space character `char.IsWhiteSpace` accepts.
- Calendar month and year arithmetic (`AddMonths`, `AddYears`, `new DateTime(year, month, 1)`) is taken as given. It enters through the `PeriodStarts` and `MonthStarts` parameters.
- There is no time zone or DST handling, matching the code's naive `DateTime` arithmetic.
- `NextDose.CalculateNextDoseFromFirstDose`: computes `Math.Ceiling` on the exact quotient of seconds, not on the double-precision quotient of minutes. It also assumes instants are whole seconds.
- `StatusColor`, `DisplayTime` and `DisplayText` formatting of times, and the display strings of events, foods and appointments, are not modelled. Only `DisplayInstant` (the instant shown) is.
- Floating-point amounts (`FoodEntry.Amount`, `TotalFoodAmount`) and `MostFrequentFoodType` are not modelled. `FoodEntry` carries neither the amount nor its optional start and end times.
- `Sequences.LexLess`: orders names ordinally by character code, not by the culture-sensitive comparer `OrderBy(n => n)` uses.
- Medications and doses are values, not shared objects, so the model does not capture:
  - the `Medication` navigation property on doses and events (names come from `FindMedication` by id);
  - `Collection.Remove` by reference identity, which `RemoveFirst` models by value equality;
  - `UpdateMedicationAsync`'s re-pointing of dose references.
- `DataServices.DataService.RegenerateDoses` and `DataServices.DataService.SyncDosesWithHistory`: the per-medication result is stated under distinct medication ids (`UniqueIds`), the case the database's primary key guarantees.
- `DataServices.DataService.RegenerateDoses`: when a medication with history follows the last one without, the timeline is the one that generation rebuilt, already stale for the later recalculations. The contract states the timeline only when every medication has history (unchanged) or the last one has none (current). It bounds `nextDoseId` only from below.
- `MainViewModels.MainViewModel.SetSelectedDays`: inherits the same gap in the timeline from `RegenerateDoses`.
- `HistoryViewModels.HistoryViewModel` filters its lists with the corrected date range (`HistoryDateRange`), not the one that ends at 23:59:00 (see Findings). `HistoryDateRangeAsWritten` and `LastMinuteOfEndDayExcluded` state the difference.
- `DateTime` overflow is not modelled: instants are unbounded integers, so `AddMinutes` and `AddDays` never throw.
- `Medications.TotalFrequencyInMinutes`: computed on unbounded integers. The program computes `FrequencyHours * 60 + FrequencyMinutes` in unchecked 32-bit `int` arithmetic, which wraps for hours ≥ 35,791,395. The add form accepts such hours, for example "35791395" and "0", and the total then wraps to −2,147,483,596 minutes. Generation would insert one dose and then throw when `AddMinutes` passes `DateTime.MinValue`. The model's positivity of accepted frequencies (`FrequencyNormalisation`, `ValidateFrequency`, both `AddMedication`s and `EditMedication`) holds only below that bound.
- `Medications.FrequencyNormalisation`: the positive total holds for hours below 35,791,395 only; above that, the program's 32-bit total wraps (see `Medications.TotalFrequencyInMinutes`).
- `MainViewModels.ValidateFrequency`: an accepted frequency is positive only below 35,791,395 hours in the program, for the same wrap-around.
- `MainViewModels.MainViewModel.AddMedication`: "every frequency stays positive" holds only up to `int` width, for the same wrap-around; the same holds for `MainViewModels.MainViewModel.EditMedication`.
- `MainViewModels.FieldInput`: a `Number` may hold any integer, while `int.TryParse` rejects values outside the 32-bit `int` range.
- `DataServices.DataService.GenerateDosesForMedication` and the other generators require a positive frequency, because with a non-positive one the program's loop never reaches its horizon (`MainViewModels.NonPositiveStepNeverReachesHorizon`): it inserts doses until `AddMinutes` passes `DateTime.MinValue` and throws.
- The other commands on both screens are not part of the scheduler core and are not modelled:
  - food, appointment and history-record add, edit and delete;
  - dose delete;
  - `ResetAllDataAsync`;
  - `RefreshCalendar`;
  - `ConfirmEvent` and `DeleteEvent`.
- Members that the code refers to but that it does not define are left out: `MedicationDose.GetNextDoses`, `TreatmentStartDate` and `TreatmentEndDate`, and `DataService.GetAllAppointmentsAsync`. The loading of appointments is a parameter of `LoadHistory`.

## Findings

| source | as written | input that shows it | evidently intended | confidence | as-written member | corrected member |
|---|---|---|---|---|---|---|
| TrackingApp/ViewModels/MainViewModel.cs:508 | The edit form rejects unparsable hours but not negative ones. | Hours "-1", minutes "30" pass and give a frequency of −30 min. The next regeneration's `while (currentDose < endDate)` then never reaches its horizon: it inserts about 3.5·10^7 doses until `AddMinutes` passes `DateTime.MinValue` and throws. | The add form's check: hours ≥ 0, so every frequency is positive (up to `int` width, see Left out). | not executed | MainViewModels.EditedFrequencyAdmitsNegativeHours | MainViewModels.MainViewModel.EditMedication |
| TrackingApp/ViewModels/HistoryViewModel.cs:327-328 | "Mes anterior" and a custom range end at 23:59:00 of their last day, while the other options end at 23:59:59. | Custom range 1–10 October 2025 and a dose at 23:59:30 on 10 October: the dose is not listed. | The range runs to the last second of its last day. | not executed | HistoryViewModels.LastMinuteOfEndDayExcluded | HistoryViewModels.CustomHistoryRange |
