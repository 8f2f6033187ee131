// The main screen's view-model: the add/edit forms' frequency validation, the
// history date ranges, the list filters over the service's collections, and the
// commands that change the selection, the range, the medications and the doses.

module MainViewModels {
  import opened Wrappers
  import opened Time
  import opened Sequences
  import opened Medications
  import opened Doses
  import opened Records
  import opened DataServices
  import NextDose
  import opened DoseSchedule

  // ---------------------------------------------------------------------------
  // Text fields.

  /** `char.IsWhiteSpace` on the characters a form field can hold. */
  predicate IsWhiteSpace(c: char) {
    c == ' ' || c == '\t' || c == '\n' || c == '\r'
  }

  /** `string.IsNullOrWhiteSpace`; a cancelled prompt is the empty string. */
  predicate IsBlank(s: string) {
    forall i :: 0 <= i < |s| ==> IsWhiteSpace(s[i])
  }

  /** A numeric form field, as `int.TryParse` sees it. */
  datatype FieldInput = Blank | Number(n: int) | NotANumber

  /** The value a field contributes: a blank field, like a failed parse, leaves 0. */
  function FieldValue(f: FieldInput): int {
    if f.Number? then f.n else 0
  }

  datatype FrequencyError = InvalidHours | InvalidMinutes | NoFrequency

  // ---------------------------------------------------------------------------
  // Frequency validation.

  /** `AddMedication`'s checks, in order: hours must parse and not be negative,
      minutes must parse and lie in [0, 59], and not both may be zero. */
  function ValidateFrequency(hours: FieldInput, minutes: FieldInput): (r: Result<(int, int), FrequencyError>)
    ensures r.Ok? <==> (!hours.NotANumber? && !minutes.NotANumber? &&
      WellFormedFrequency(FieldValue(hours), FieldValue(minutes)))
    ensures r.Ok? ==> r.value == (FieldValue(hours), FieldValue(minutes)) && r.value.0 * 60 + r.value.1 > 0
  {
    if hours.NotANumber? || FieldValue(hours) < 0 then Err(InvalidHours)
    else if minutes.NotANumber? || FieldValue(minutes) < 0 || FieldValue(minutes) >= 60 then Err(InvalidMinutes)
    else if FieldValue(hours) == 0 && FieldValue(minutes) == 0 then Err(NoFrequency)
    else Ok((FieldValue(hours), FieldValue(minutes)))
  }

  /** `EditMedication`'s checks as written: the minutes range and "not both zero" are
      checked, but a negative number of hours is let through. */
  function ValidateEditedFrequency(hours: FieldInput, minutes: FieldInput): (r: Result<(int, int), FrequencyError>)
    ensures r.Ok? <==> (!hours.NotANumber? && !minutes.NotANumber? &&
      0 <= FieldValue(minutes) <= 59 && !(FieldValue(hours) == 0 && FieldValue(minutes) == 0))
    ensures r.Ok? ==> r.value == (FieldValue(hours), FieldValue(minutes))
  {
    if hours.NotANumber? then Err(InvalidHours)
    else if minutes.NotANumber? || FieldValue(minutes) < 0 || FieldValue(minutes) > 59 then Err(InvalidMinutes)
    else if FieldValue(hours) == 0 && FieldValue(minutes) == 0 then Err(NoFrequency)
    else Ok((FieldValue(hours), FieldValue(minutes)))
  }

  /** The two forms agree on every input except negative hours, which only the add form
      refuses. */
  lemma EditedValidationDiffersOnlyOnNegativeHours(hours: FieldInput, minutes: FieldInput)
    ensures FieldValue(hours) >= 0 ==> ValidateEditedFrequency(hours, minutes) == ValidateFrequency(hours, minutes)
    ensures FieldValue(hours) < 0 ==> ValidateFrequency(hours, minutes) == Err(InvalidHours)
  {
  }

  /** The edit form accepts "-1 h 30 min", a frequency of -30 minutes. */
  lemma EditedFrequencyAdmitsNegativeHours()
    ensures ValidateEditedFrequency(Number(-1), Number(30)) == Ok((-1, 30))
    ensures ValidateFrequency(Number(-1), Number(30)) == Err(InvalidHours)
    ensures TotalFrequencyInMinutes(NewMedication().(frequencyHours := -1, frequencyMinutes := 30)) == -30
  {
  }

  /** With a step that is not positive, the generator's guard `current < end` holds on
      every iteration: with a medication saved with such a frequency, the next
      regeneration never reaches its horizon. The program inserts doses until
      `AddMinutes` passes `DateTime.MinValue` and throws. */
  lemma NonPositiveStepNeverReachesHorizon(start: Instant, step: int, end: Instant, k: nat)
    requires step <= 0 && start < end
    ensures start + k * step < end
  {
    if k > 0 {
      NextDose.MulMonotone(step, 0, k);
    }
  }

  // ---------------------------------------------------------------------------
  // `GetDateRange`

  /** The options of the range picker. */
  function HistoryRanges(): seq<string> {
    ["Hoy", "Semana", "Mes", "Trimestre", "Semestre", "Año", "Personalizado"]
  }

  /** The profiles a record can be made under. */
  function UserTypes(): seq<string> {
    ["Bebé", "Adulto", "Animal"]
  }

  /** The option selected when the screen opens. */
  const InitialHistoryRange: string := "Esta semana"

  /** `today.AddMonths(-1)`, `AddMonths(-3)`, `AddMonths(-6)` and `AddYears(-1)`:
      calendar arithmetic is taken as given. */
  datatype PeriodStarts = PeriodStarts(monthAgo: Instant, quarterAgo: Instant, halfYearAgo: Instant, yearAgo: Instant)

  function GetDateRange(option: string, now: Instant, customStart: Instant, customEnd: Instant, periods: PeriodStarts): DateRange {
    var today := Date(now);
    if option == "Hoy" then DateRange(today, EndOfDay(today))
    else if option == "Semana" then DateRange(AddDays(today, -7), now)
    else if option == "Mes" then DateRange(periods.monthAgo, now)
    else if option == "Trimestre" then DateRange(periods.quarterAgo, now)
    else if option == "Semestre" then DateRange(periods.halfYearAgo, now)
    else if option == "Año" then DateRange(periods.yearAgo, now)
    else if option == "Personalizado" then DateRange(customStart, EndOfDay(customEnd))
    else FullRange
  }

  /** "Hoy" holds exactly the instants of today's calendar day. */
  lemma TodayRangeIsToday(now: Instant, customStart: Instant, customEnd: Instant, periods: PeriodStarts, t: Instant)
    ensures Within(t, GetDateRange("Hoy", now, customStart, customEnd, periods)) <==> Date(t) == Date(now)
  {
    SameDayWindow(Date(now), t);
  }

  /** "Semana" holds everything from the start of the seventh day back up to now. */
  lemma WeekRangeIsLastSevenDays(now: Instant, customStart: Instant, customEnd: Instant, periods: PeriodStarts, t: Instant)
    ensures Within(t, GetDateRange("Semana", now, customStart, customEnd, periods)) <==>
      Date(now) - 7 * SecondsPerDay <= Date(t) && t <= now
  {
    var weekStart := Date(now) - 7 * SecondsPerDay;
    if weekStart <= t {
      assert weekStart % SecondsPerDay == 0 by {
        assert weekStart == (Date(now) / SecondsPerDay - 7) * SecondsPerDay;
      }
      MidnightOrder(weekStart, Date(t));
    }
  }

  /** A custom range of two dates holds every instant from the start date through the
      whole of the end date, and nothing later. */
  lemma CustomRangeIsWholeDays(now: Instant, customStart: Instant, customEnd: Instant, periods: PeriodStarts, t: Instant)
    requires customEnd % SecondsPerDay == 0
    ensures Within(t, GetDateRange("Personalizado", now, customStart, customEnd, periods)) <==>
      customStart <= t && Date(t) <= customEnd
  {
    UpToEndOfDay(customEnd, t);
  }

  /** An option the switch does not list, the opening "Esta semana" among them, gives
      the full range: the screen opens with no date filter. */
  lemma UnlistedOptionIsFullRange(option: string, now: Instant, customStart: Instant, customEnd: Instant, periods: PeriodStarts, t: Instant)
    requires option !in HistoryRanges()
    requires MinInstant <= t <= MaxInstant
    ensures GetDateRange(option, now, customStart, customEnd, periods) == FullRange
    ensures Within(t, GetDateRange(option, now, customStart, customEnd, periods))
    ensures InitialHistoryRange !in HistoryRanges()
  {
    assert HistoryRanges()[0] == "Hoy" && HistoryRanges()[6] == "Personalizado";
    assert HistoryRanges()[1] == "Semana" && HistoryRanges()[2] == "Mes";
    assert HistoryRanges()[3] == "Trimestre" && HistoryRanges()[4] == "Semestre" && HistoryRanges()[5] == "Año";
  }

  // ---------------------------------------------------------------------------
  // The filtered lists.

  /** `FilteredFoodEntries`: entries whose time lies in the range. */
  function FilteredFoodEntries(foods: seq<FoodEntry>, range: DateRange): (r: seq<FoodEntry>)
    ensures forall f :: f in r <==> f in foods && Within(f.time, range)
    ensures |r| <= |foods|
  {
    Filter(foods, (f: FoodEntry) => Within(f.time, range))
  }

  /** `FilteredMedications`: medications whose first dose lies in the range. */
  function FilteredMedications(medications: seq<Medication>, range: DateRange): (r: seq<Medication>)
    ensures forall m :: m in r <==> m in medications && Within(m.firstDoseTime, range)
    ensures |r| <= |medications|
  {
    Filter(medications, (m: Medication) => Within(m.firstDoseTime, range))
  }

  /** `FilteredAppointments`: appointments in the range, earliest first. */
  function FilteredAppointments(appointments: seq<MedicalAppointment>, range: DateRange): (r: seq<MedicalAppointment>)
    ensures forall a :: a in r <==> a in appointments && Within(a.appointmentDate, range)
    ensures forall i, j :: 0 <= i < j < |r| ==> r[i].appointmentDate <= r[j].appointmentDate
  {
    var kept := Filter(appointments, (a: MedicalAppointment) => Within(a.appointmentDate, range));
    var key := (a: MedicalAppointment) => a.appointmentDate;
    SortByKeyMembers(kept, key);
    var r := SortByKey(kept, key);
    assert forall i, j :: 0 <= i < j < |r| ==> key(r[i]) <= key(r[j]);
    r
  }

  /** A timeline event the pending list shows: a scheduled, unconfirmed dose in the range,
      of the selected medication when one is selected. */
  predicate ShownPendingEvent(e: MedicationEvent, range: DateRange, selectedMedicationId: Option<int>) {
    !e.isHistory && !e.isConfirmed && Within(e.eventTime, range) &&
    (selectedMedicationId.Some? ==> e.medicationId == selectedMedicationId.value)
  }

  function PendingEventFilter(range: DateRange, selectedMedicationId: Option<int>): MedicationEvent -> bool {
    (e: MedicationEvent) => ShownPendingEvent(e, range, selectedMedicationId)
  }

  /** `FilteredCombinedEvents`: exactly the shown pending events, most recent first. */
  function FilteredCombinedEvents(events: seq<MedicationEvent>, range: DateRange, selectedMedicationId: Option<int>): (r: seq<MedicationEvent>)
    ensures forall e :: e in r <==> e in events && ShownPendingEvent(e, range, selectedMedicationId)
    ensures forall i, j :: 0 <= i < j < |r| ==> r[i].eventTime >= r[j].eventTime
    ensures multiset(r) == multiset(Filter(events, PendingEventFilter(range, selectedMedicationId)))
  {
    var kept := Filter(events, PendingEventFilter(range, selectedMedicationId));
    SortByKeyMembers(kept, EventKey());
    var r := SortByKey(kept, EventKey());
    assert forall i, j :: 0 <= i < j < |r| ==> EventKey()(r[i]) <= EventKey()(r[j]);
    r
  }

  /** Over a rebuilt timeline, the pending list shows one event per unconfirmed dose in
      the range (of the selected medication), and nothing else: no history record, no
      confirmed dose. */
  lemma PendingListShowsPendingDoses(history: seq<MedicationHistory>, doses: seq<MedicationDose>,
    medications: seq<Medication>, range: DateRange, selectedMedicationId: Option<int>)
    ensures var r := FilteredCombinedEvents(CombinedEvents(history, doses, medications), range, selectedMedicationId);
      (forall e :: e in r ==> exists d :: d in doses && !d.isConfirmed && e == DoseEvent(d, medications)) &&
      (forall d :: (d in doses && !d.isConfirmed && Within(d.scheduledTime, range) &&
          (selectedMedicationId.Some? ==> d.medicationId == selectedMedicationId.value)) ==>
        DoseEvent(d, medications) in r)
  {
    CombinedEventsContents(history, doses, medications);
  }

  function AdministeredBy(now: Instant): MedicationHistory -> bool {
    (h: MedicationHistory) => h.administeredTime <= now
  }

  /** `FilteredMedicationHistory`: the records administered up to now, most recent
      first. The selected date range plays no part. */
  function FilteredMedicationHistory(history: seq<MedicationHistory>, now: Instant): (r: seq<MedicationHistory>)
    ensures forall h :: h in r <==> h in history && h.administeredTime <= now
    ensures forall i, j :: 0 <= i < j < |r| ==> r[i].administeredTime >= r[j].administeredTime
    ensures multiset(r) == multiset(Filter(history, AdministeredBy(now)))
  {
    var kept := Filter(history, AdministeredBy(now));
    SortByKeyMembers(kept, HistoryKey());
    var r := SortByKey(kept, HistoryKey());
    assert forall i, j :: 0 <= i < j < |r| ==> HistoryKey()(r[i]) <= HistoryKey()(r[j]);
    r
  }

  // ---------------------------------------------------------------------------
  // Confirming from the dose list.

  /** The history record `ConfirmDose` writes for a dose after confirmation. */
  function ConfirmationRecord(c: MedicationDose, m: Medication, id: int, userType: string, now: Instant): (h: MedicationHistory)
    ensures h.medicationId == c.medicationId && h.medicationName == m.name && h.dose == m.dose
    ensures h.administeredTime == DisplayInstant(c.(actualTime := Some(c.actualTime.GetOr(now))))
  {
    MedicationHistory(id, c.medicationId, m.name, m.dose, c.actualTime.GetOr(now), userType, "")
  }

  /** Confirming a pending dose records it at `now`; a dose confirmed earlier is recorded
      again at its first confirmation time. Either way the record anchors the
      medication's next recalculation, which then starts one interval after it or later. */
  lemma ConfirmationAnchorsNextSchedule(d: MedicationDose, m: Medication, id: int, userType: string,
    now: Instant, history: seq<MedicationHistory>)
    requires d.medicationId == m.id && TotalFrequencyInMinutes(m) > 0
    ensures var c := Confirm(d, false, now);
      var h := ConfirmationRecord(c, m, id, userType, now);
      h.administeredTime == (if d.isConfirmed then d.actualTime.GetOr(now) else now) &&
      HasHistory([h] + history, m.id) &&
      RecalculationStart(m, [h] + history, now) >= AddMinutes(h.administeredTime, TotalFrequencyInMinutes(m))
  {
    var c := Confirm(d, false, now);
    var h := ConfirmationRecord(c, m, id, userType, now);
    assert h in [h] + history;
    var latest := LatestAdministered([h] + history, m.id);
    assert latest.Some? && h.administeredTime <= latest.value;
  }

  // ---------------------------------------------------------------------------
  // The view-model.

  class MainViewModel {
    const service: DataService
    var selectedUserType: string
    var selectedDays: int
    var selectedMedicationId: Option<int>
    var selectedMedication: Option<Medication>
    var selectedHistoryRange: string
    var customStartDate: Instant
    var customEndDate: Instant

    /** The selected id is the selected medication's, and a custom range never ends
        before it starts. */
    ghost predicate Valid()
      reads this
    {
      selectedMedicationId == (if selectedMedication.Some? then Some(selectedMedication.value.id) else None) &&
      customStartDate <= customEndDate
    }

    /** The constructor: defaults, both custom dates today, and the first medication
        selected when there is one. */
    constructor (service: DataService, now: Instant)
      ensures this.service == service && Valid()
      ensures selectedUserType == "Bebé" && selectedDays == 3 && selectedHistoryRange == InitialHistoryRange
      ensures customStartDate == Date(now) && customEndDate == Date(now)
      ensures selectedMedication == (if service.medications == [] then None else Some(service.medications[0]))
    {
      this.service := service;
      selectedUserType := "Bebé";
      selectedDays := 3;
      selectedHistoryRange := InitialHistoryRange;
      customStartDate := Date(now);
      customEndDate := Date(now);
      if service.medications == [] {
        selectedMedication := None;
        selectedMedicationId := None;
      } else {
        selectedMedication := Some(service.medications[0]);
        selectedMedicationId := Some(service.medications[0].id);
      }
    }

    /** The range the lists are filtered by. */
    function CurrentDateRange(now: Instant, periods: PeriodStarts): DateRange
      reads this
    {
      GetDateRange(selectedHistoryRange, now, customStartDate, customEndDate, periods)
    }

    /** The `SelectedUserType` setter: the service's profile follows. */
    method SetSelectedUserType(value: string)
      modifies this, service
      ensures selectedUserType == value && service.currentUserType == value
      ensures service.medications == old(service.medications) && service.doses == old(service.doses)
      ensures service.history == old(service.history) && service.combinedEvents == old(service.combinedEvents)
      ensures selectedMedication == old(selectedMedication) && selectedMedicationId == old(selectedMedicationId)
      ensures customStartDate == old(customStartDate) && customEndDate == old(customEndDate)
    {
      selectedUserType := value;
      service.currentUserType := value;
    }

    /** The `SelectedDays` setter: every medication's schedule is regenerated for the new
        number of days. */
    method SetSelectedDays(days: int, now: Instant)
      requires PositiveFrequencies(service.medications)
      modifies this, service
      ensures selectedDays == days
      ensures service.medications == old(service.medications) && service.history == old(service.history)
      ensures Filter(service.doses, ConfirmedOnly()) == Filter(old(service.doses), ConfirmedOnly())
      ensures forall b :: (forall m :: m in service.medications ==> m.id != b) ==>
        Filter(service.doses, OfMedication(b)) == Filter(old(service.doses), OfMedication(b))
      ensures UniqueIds(service.medications) ==> forall m :: m in service.medications ==>
        PendingTimes(service.doses, m.id) == RegeneratedTimes(m, service.history, days, now)
      ensures var ms := service.medications;
        ((forall k :: 0 <= k < |ms| ==> HasHistory(service.history, ms[k].id)) ==>
          service.combinedEvents == old(service.combinedEvents)) &&
        (|ms| > 0 && !HasHistory(service.history, ms[|ms| - 1].id) ==>
          service.combinedEvents == CombinedEvents(service.history, service.doses, ms))
      ensures selectedMedication == old(selectedMedication) && selectedMedicationId == old(selectedMedicationId)
      ensures customStartDate == old(customStartDate) && customEndDate == old(customEndDate)
    {
      selectedDays := days;
      service.RegenerateDoses(days, now);
    }

    /** The `SelectedMedication` setter: the id filter follows the medication. */
    method SetSelectedMedication(value: Option<Medication>)
      requires Valid()
      modifies this
      ensures Valid() && selectedMedication == value
      ensures customStartDate == old(customStartDate) && customEndDate == old(customEndDate)
      ensures selectedHistoryRange == old(selectedHistoryRange)
      ensures selectedDays == old(selectedDays) && selectedUserType == old(selectedUserType)
    {
      selectedMedication := value;
      selectedMedicationId := if value.Some? then Some(value.value.id) else None;
    }

    /** `UpdateSelectedMedication`: selects the first medication when there is one and
        nothing is selected, clears the selection when there are none, and otherwise
        keeps it. */
    method UpdateSelectedMedication()
      requires Valid()
      modifies this
      ensures Valid()
      ensures service.medications != [] && old(selectedMedication).None? ==>
        selectedMedication == Some(service.medications[0])
      ensures service.medications == [] ==> selectedMedication.None?
      ensures service.medications != [] && old(selectedMedication).Some? ==>
        selectedMedication == old(selectedMedication)
      ensures customStartDate == old(customStartDate) && customEndDate == old(customEndDate)
      ensures selectedHistoryRange == old(selectedHistoryRange)
      ensures selectedDays == old(selectedDays) && selectedUserType == old(selectedUserType)
    {
      if service.medications != [] && selectedMedication.None? {
        SetSelectedMedication(Some(service.medications[0]));
      } else if service.medications == [] {
        SetSelectedMedication(None);
      }
    }

    /** The `SelectedHistoryRange` setter. Choosing "Personalizado" opens the date
        prompts, whose answers `CompleteCustomRange` takes. */
    method SetSelectedHistoryRange(value: string)
      modifies this
      ensures selectedHistoryRange == value
      ensures customStartDate == old(customStartDate) && customEndDate == old(customEndDate)
      ensures selectedMedication == old(selectedMedication) && selectedMedicationId == old(selectedMedicationId)
    {
      selectedHistoryRange := value;
    }

    /** `ShowCustomDateRangePicker` after its prompts: two dates in order become the
        custom range; a blank or malformed answer, or an end before the start, puts the
        range back to "Hoy". */
    method CompleteCustomRange(start: DateInput, end: DateInput)
      requires Valid()
      modifies this
      ensures Valid()
      ensures start.Entered? && end.Entered? && start.date <= end.date ==>
        customStartDate == start.date && customEndDate == end.date &&
        selectedHistoryRange == old(selectedHistoryRange)
      ensures !(start.Entered? && end.Entered? && start.date <= end.date) ==>
        selectedHistoryRange == "Hoy" &&
        customStartDate == old(customStartDate) && customEndDate == old(customEndDate)
      ensures selectedMedication == old(selectedMedication) && selectedMedicationId == old(selectedMedicationId)
    {
      if start.Empty? || end.Empty? {
        SetSelectedHistoryRange("Hoy");
        return;
      }
      if start.Entered? && end.Entered? {
        if start.date > end.date {
          SetSelectedHistoryRange("Hoy");
          return;
        }
        customStartDate := start.date;
        customEndDate := end.date;
      } else {
        SetSelectedHistoryRange("Hoy");
      }
    }

    /** `AddMedication`: with a name, a dose and a valid frequency, the medication (first
        dose today at the chosen time) is added with a schedule of the selected number of
        days; otherwise nothing changes. An added medication always has a positive
        frequency. */
    method AddMedication(name: string, dose: string, hours: FieldInput, minutes: FieldInput,
      timeOfDay: int, assignedId: int, now: Instant)
      requires Valid()
      modifies this, service
      ensures Valid()
      ensures var accepted := !IsBlank(name) && !IsBlank(dose) && ValidateFrequency(hours, minutes).Ok?;
        var added := Medication(assignedId, name, dose,
          FieldValue(hours), FieldValue(minutes), Date(now) + timeOfDay, old(service.currentUserType));
        (accepted ==>
          service.medications == old(service.medications) + [added] &&
          service.doses == KeepNonPending(old(service.doses), assignedId) +
            PendingDoses(assignedId, GeneratedTimes(added, old(selectedDays), false, now), old(service.nextDoseId)) &&
          service.nextDoseId == old(service.nextDoseId) + |GeneratedTimes(added, old(selectedDays), false, now)| &&
          service.combinedEvents == CombinedEvents(service.history, service.doses, service.medications) &&
          (old(selectedMedication).None? ==> selectedMedication == Some(service.medications[0])) &&
          (old(selectedMedication).Some? ==> selectedMedication == old(selectedMedication))) &&
        (!accepted ==>
          service.medications == old(service.medications) && service.doses == old(service.doses) &&
          service.combinedEvents == old(service.combinedEvents) && service.nextDoseId == old(service.nextDoseId) &&
          selectedMedication == old(selectedMedication))
      ensures service.history == old(service.history) && service.nextHistoryId == old(service.nextHistoryId)
      ensures PositiveFrequencies(old(service.medications)) ==> PositiveFrequencies(service.medications)
      ensures service.currentUserType == old(service.currentUserType)
      ensures selectedDays == old(selectedDays) && selectedUserType == old(selectedUserType)
      ensures selectedHistoryRange == old(selectedHistoryRange)
      ensures customStartDate == old(customStartDate) && customEndDate == old(customEndDate)
    {
      if IsBlank(name) || IsBlank(dose) {
        return;
      }
      var frequency := ValidateFrequency(hours, minutes);
      if frequency.Err? {
        return;
      }
      var medication := NewMedication().(name := name, dose := dose,
        frequencyHours := frequency.value.0, frequencyMinutes := frequency.value.1,
        firstDoseTime := Date(now) + timeOfDay);
      service.AddMedication(medication, assignedId, selectedDays, false, now);
      UpdateSelectedMedication();
    }

    /** `EditMedication` on the medication at `index`, with the add form's frequency
        check: negative hours are refused, so every saved frequency stays positive. */
    method EditMedication(index: int, newName: string, newDose: string, hours: FieldInput, minutes: FieldInput)
      requires 0 <= index < |service.medications|
      modifies service
      ensures var accepted := !IsBlank(newName) && !IsBlank(newDose) && ValidateFrequency(hours, minutes).Ok?;
        (accepted ==>
          service.medications == old(service.medications)[index := old(service.medications)[index].(
            name := newName, dose := newDose,
            frequencyHours := FieldValue(hours), frequencyMinutes := FieldValue(minutes))] &&
          service.combinedEvents == CombinedEvents(service.history, service.doses, service.medications)) &&
        (!accepted ==>
          service.medications == old(service.medications) &&
          service.combinedEvents == old(service.combinedEvents))
      ensures PositiveFrequencies(old(service.medications)) ==> PositiveFrequencies(service.medications)
      ensures service.doses == old(service.doses) && service.history == old(service.history)
      ensures service.nextDoseId == old(service.nextDoseId) && service.nextHistoryId == old(service.nextHistoryId)
      ensures service.currentUserType == old(service.currentUserType)
    {
      if IsBlank(newName) || IsBlank(newDose) {
        return;
      }
      var frequency := ValidateFrequency(hours, minutes);
      if frequency.Err? {
        return;
      }
      var edited := service.medications[index].(name := newName, dose := newDose,
        frequencyHours := frequency.value.0, frequencyMinutes := frequency.value.1);
      service.UpdateMedication(index, edited);
      assert forall m :: m in service.medications ==> m == edited || m in old(service.medications);
    }

    /** `ConfirmDose` on the dose at `index`: the service confirms it (at `now`), then a
        history record goes to the front of the history when the dose has a medication,
        even when the dose had been confirmed before. */
    method ConfirmDose(index: int, now: Instant)
      requires 0 <= index < |service.doses|
      modifies service
      ensures service.doses == old(service.doses)[index := Confirm(old(service.doses)[index], false, now)]
      ensures var d := old(service.doses)[index];
        var m := FindMedication(service.medications, d.medicationId);
        (m.Some? ==>
          service.history ==
            [ConfirmationRecord(Confirm(d, false, now), m.value, old(service.nextHistoryId), service.currentUserType, now)] +
            old(service.history) &&
          service.nextHistoryId == old(service.nextHistoryId) + 1) &&
        (m.None? ==> service.history == old(service.history) && service.nextHistoryId == old(service.nextHistoryId))
      ensures service.medications == old(service.medications) && service.currentUserType == old(service.currentUserType)
      ensures service.combinedEvents == old(service.combinedEvents) && service.nextDoseId == old(service.nextDoseId)
    {
      service.ConfirmDose(index, false, now);
      var dose := service.doses[index];
      var medication := FindMedication(service.medications, dose.medicationId);
      if medication.Some? && dose.isConfirmed {
        var record := ConfirmationRecord(dose, medication.value, 0, service.currentUserType, now);
        var saved := service.SaveMedicationHistory(record);
        service.history := [saved] + service.history;
      }
    }
  }
}
