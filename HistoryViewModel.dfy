// The history screen's view-model: the record lists it loads, the filter choices
// it offers, the date ranges, and the filters that produce the three lists shown
// (administered doses, food entries and confirmed appointments).

module HistoryViewModels {
  import opened Wrappers
  import opened Time
  import opened Sequences
  import opened Units
  import opened Records
  import MainViewModels
  import NextDose

  // ---------------------------------------------------------------------------
  // Options.

  const AllOption: string := "Todos"
  const NoPeriod: string := "Seleccionar período..."
  const WholeHistory: string := "Todo el historial"
  const CustomRangeOption: string := "Rango personalizado"

  /** The unit filter's options. */
  function UnitOptions(): seq<string> {
    ["Todos", "g", "ml", "unidades", "cucharadas", "tazas"]
  }

  /** The profile filter's options. */
  function ProfileOptions(): seq<string> {
    ["Todos", "Adulto", "Niño"]
  }

  // ---------------------------------------------------------------------------
  // `GetDateRange`

  /** `new DateTime(now.Year, now.Month, 1)` and the first of the month before it:
      calendar arithmetic is taken as given. */
  datatype MonthStarts = MonthStarts(thisMonth: Instant, previousMonth: Instant)

  /** 23 h 59 min: what the code adds to a date for the end of the previous month and
      of a custom range. */
  const HoursAndMinutesToMidnight: int := 23 * SecondsPerHour + 59 * SecondsPerMinute

  /** `GetDateRange` as written: "Hoy" and the "last n days" options end at today's
      23:59:59, but the previous month and a custom range end at 23:59:00 of their last
      day. */
  function HistoryDateRangeAsWritten(option: string, now: Instant, months: MonthStarts,
    customStart: Option<Instant>, customEnd: Option<Instant>): DateRange
  {
    var today := Date(now);
    if option == "Hoy" then DateRange(today, EndOfDay(today))
    else if option == "Últimos 7 días" then DateRange(AddDays(today, -7), EndOfDay(today))
    else if option == "Últimos 30 días" then DateRange(AddDays(today, -30), EndOfDay(today))
    else if option == "Este mes" then DateRange(months.thisMonth, EndOfDay(today))
    else if option == "Mes anterior" then
      DateRange(months.previousMonth, AddDays(months.thisMonth, -1) + HoursAndMinutesToMidnight)
    else if option == CustomRangeOption && customStart.Some? && customEnd.Some? then
      DateRange(customStart.value, customEnd.value + HoursAndMinutesToMidnight)
    else FullRange
  }

  /** `GetDateRange` with every range running to the last second of its last day. */
  function HistoryDateRange(option: string, now: Instant, months: MonthStarts,
    customStart: Option<Instant>, customEnd: Option<Instant>): DateRange
  {
    var today := Date(now);
    if option == "Hoy" then DateRange(today, EndOfDay(today))
    else if option == "Últimos 7 días" then DateRange(AddDays(today, -7), EndOfDay(today))
    else if option == "Últimos 30 días" then DateRange(AddDays(today, -30), EndOfDay(today))
    else if option == "Este mes" then DateRange(months.thisMonth, EndOfDay(today))
    else if option == "Mes anterior" then DateRange(months.previousMonth, EndOfDay(AddDays(months.thisMonth, -1)))
    else if option == CustomRangeOption && customStart.Some? && customEnd.Some? then
      DateRange(customStart.value, EndOfDay(customEnd.value))
    else FullRange
  }

  /** The two versions differ only in where the previous month and a custom range end. */
  lemma RangeVersionsAgreeElsewhere(option: string, now: Instant, months: MonthStarts,
    customStart: Option<Instant>, customEnd: Option<Instant>)
    ensures option != "Mes anterior" && option != CustomRangeOption ==>
      HistoryDateRangeAsWritten(option, now, months, customStart, customEnd) ==
      HistoryDateRange(option, now, months, customStart, customEnd)
    ensures HistoryDateRangeAsWritten(option, now, months, customStart, customEnd).start ==
      HistoryDateRange(option, now, months, customStart, customEnd).start
  {
  }

  /** A custom range from the 1st to the 10th of October 2025: a dose given at 23:59:30 on
      the 10th falls outside the range as written, though its date is the end date; the
      corrected range holds it. The previous month loses its last 59 seconds the same
      way. */
  lemma LastMinuteOfEndDayExcluded()
    ensures var start, end := Some(NextDose.At(1, 0, 0)), Some(NextDose.At(10, 0, 0));
      var t := NextDose.At(10, 0, 0) + 23 * SecondsPerHour + 59 * SecondsPerMinute + 30;
      Date(t) == end.value &&
      !Within(t, HistoryDateRangeAsWritten(CustomRangeOption, t, MonthStarts(0, 0), start, end)) &&
      Within(t, HistoryDateRange(CustomRangeOption, t, MonthStarts(0, 0), start, end))
    ensures var m := MonthStarts(NextDose.At(1, 0, 0), NextDose.At(1, 0, 0) - 30 * SecondsPerDay);
      !Within(m.thisMonth - 30, HistoryDateRangeAsWritten("Mes anterior", m.thisMonth, m, None, None)) &&
      Within(m.thisMonth - 30, HistoryDateRange("Mes anterior", m.thisMonth, m, None, None))
  {
    var t := NextDose.At(10, 0, 0) + 23 * SecondsPerHour + 59 * SecondsPerMinute + 30;
    SameDayWindow(NextDose.At(10, 0, 0), t);
  }

  /** "Hoy", "Últimos 7 días" and "Últimos 30 días" hold exactly the instants from the
      start of the n-th day back through the end of today. */
  lemma RecentRangesAreWholeDays(now: Instant, months: MonthStarts, customStart: Option<Instant>,
    customEnd: Option<Instant>, t: Instant)
    ensures Within(t, HistoryDateRange("Hoy", now, months, customStart, customEnd)) <==> Date(t) == Date(now)
    ensures Within(t, HistoryDateRange("Últimos 7 días", now, months, customStart, customEnd)) <==>
      Date(now) - 7 * SecondsPerDay <= t && Date(t) <= Date(now)
    ensures Within(t, HistoryDateRange("Últimos 30 días", now, months, customStart, customEnd)) <==>
      Date(now) - 30 * SecondsPerDay <= t && Date(t) <= Date(now)
  {
    UpToEndOfDay(Date(now), t);
    SameDayWindow(Date(now), t);
  }

  /** The previous month is every instant from its first midnight up to, not including,
      this month's. */
  lemma PreviousMonthIsWholeMonth(now: Instant, months: MonthStarts, t: Instant)
    ensures Within(t, HistoryDateRange("Mes anterior", now, months, None, None)) <==>
      months.previousMonth <= t < months.thisMonth
  {
  }

  /** A complete custom range holds every instant from the start date through the whole
      end date; an incomplete one is no filter at all. */
  lemma CustomHistoryRange(now: Instant, months: MonthStarts, customStart: Option<Instant>,
    customEnd: Option<Instant>, t: Instant)
    ensures customStart.Some? && customEnd.Some? && customEnd.value % SecondsPerDay == 0 ==>
      (Within(t, HistoryDateRange(CustomRangeOption, now, months, customStart, customEnd)) <==>
        customStart.value <= t && Date(t) <= customEnd.value)
    ensures customStart.None? || customEnd.None? ==>
      HistoryDateRange(CustomRangeOption, now, months, customStart, customEnd) == FullRange
  {
    if customStart.Some? && customEnd.Some? && customEnd.value % SecondsPerDay == 0 {
      UpToEndOfDay(customEnd.value, t);
    }
  }

  // ---------------------------------------------------------------------------
  // The filters. Each `if (filter != "Todos") Where(…)` is a `Where` by a guard that
  // holds for every item when the filter is "Todos".

  function NameGuard(filter: string): MedicationHistory -> bool {
    (h: MedicationHistory) => filter == AllOption || h.medicationName == filter
  }

  function RecordProfileGuard(filter: string): MedicationHistory -> bool {
    (h: MedicationHistory) => filter == AllOption || h.userType == filter
  }

  function AdministeredWithin(range: DateRange): MedicationHistory -> bool {
    (h: MedicationHistory) => Within(h.administeredTime, range)
  }

  /** A record the medication list shows. */
  predicate RecordShown(h: MedicationHistory, nameFilter: string, profileFilter: string, range: DateRange) {
    (nameFilter == AllOption || h.medicationName == nameFilter) &&
    (profileFilter == AllOption || h.userType == profileFilter) &&
    Within(h.administeredTime, range)
  }

  function RecordFilter(nameFilter: string, profileFilter: string, range: DateRange): MedicationHistory -> bool {
    (h: MedicationHistory) => RecordShown(h, nameFilter, profileFilter, range)
  }

  function FoodTypeGuard(filter: string): FoodEntry -> bool {
    (f: FoodEntry) => filter == AllOption || f.foodType == filter
  }

  function UnitGuard(filter: string): FoodEntry -> bool {
    (f: FoodEntry) => filter == AllOption || GetDisplayText(f.unit) == filter
  }

  function FoodProfileGuard(filter: string): FoodEntry -> bool {
    (f: FoodEntry) => filter == AllOption || f.userType == filter
  }

  function EatenWithin(range: DateRange): FoodEntry -> bool {
    (f: FoodEntry) => Within(f.time, range)
  }

  /** A food entry the food list shows. */
  predicate FoodShown(f: FoodEntry, typeFilter: string, unitFilter: string, profileFilter: string, range: DateRange) {
    (typeFilter == AllOption || f.foodType == typeFilter) &&
    (unitFilter == AllOption || GetDisplayText(f.unit) == unitFilter) &&
    (profileFilter == AllOption || f.userType == profileFilter) &&
    Within(f.time, range)
  }

  function FoodFilter(typeFilter: string, unitFilter: string, profileFilter: string, range: DateRange): FoodEntry -> bool {
    (f: FoodEntry) => FoodShown(f, typeFilter, unitFilter, profileFilter, range)
  }

  function AppointmentProfileGuard(filter: string): MedicalAppointment -> bool {
    (a: MedicalAppointment) => filter == AllOption || a.userType == filter
  }

  function ScheduledWithin(range: DateRange): MedicalAppointment -> bool {
    (a: MedicalAppointment) => Within(a.appointmentDate, range)
  }

  /** An appointment the appointment list shows, once a period has been chosen. */
  predicate AppointmentShown(a: MedicalAppointment, profileFilter: string, range: DateRange) {
    (profileFilter == AllOption || a.userType == profileFilter) && Within(a.appointmentDate, range)
  }

  function AppointmentFilter(profileFilter: string, range: DateRange): MedicalAppointment -> bool {
    (a: MedicalAppointment) => AppointmentShown(a, profileFilter, range)
  }

  function ConfirmedAppointment(): MedicalAppointment -> bool {
    (a: MedicalAppointment) => a.isConfirmed
  }

  lemma ThreeStages<T>(s: seq<T>, p1: T -> bool, p2: T -> bool, p3: T -> bool, all: T -> bool)
    requires forall x :: all(x) == (p1(x) && p2(x) && p3(x))
    ensures Filter(Filter(Filter(s, p1), p2), p3) == Filter(s, all)
  {
    var p12 := (x: T) => p1(x) && p2(x);
    FilterAnd(s, p1, p2, p12);
    FilterAnd(s, p12, p3, all);
  }

  lemma FourStages<T>(s: seq<T>, p1: T -> bool, p2: T -> bool, p3: T -> bool, p4: T -> bool, all: T -> bool)
    requires forall x :: all(x) == (p1(x) && p2(x) && p3(x) && p4(x))
    ensures Filter(Filter(Filter(Filter(s, p1), p2), p3), p4) == Filter(s, all)
  {
    var p123 := (x: T) => p1(x) && p2(x) && p3(x);
    ThreeStages(s, p1, p2, p3, p123);
    FilterAnd(s, p123, p4, all);
  }

  /** The medication list `ApplyFilters` builds: the records passing every filter, most
      recent first. */
  function MedicationHistoryView(all: seq<MedicationHistory>, nameFilter: string, profileFilter: string,
    range: DateRange): seq<MedicationHistory>
  {
    SortByKey(Filter(all, RecordFilter(nameFilter, profileFilter, range)), HistoryKey())
  }

  /** The food list `ApplyFilters` builds: the entries passing every filter, most recent
      first. */
  function FoodView(all: seq<FoodEntry>, typeFilter: string, unitFilter: string, profileFilter: string,
    range: DateRange): seq<FoodEntry>
  {
    SortByKey(Filter(all, FoodFilter(typeFilter, unitFilter, profileFilter, range)), FoodKey())
  }

  /** The appointment list `ApplyFilters` builds: nothing until a period is chosen, then
      the appointments passing the profile and date filters, latest first. */
  function AppointmentView(all: seq<MedicalAppointment>, dateOption: string, profileFilter: string,
    range: DateRange): seq<MedicalAppointment>
  {
    if dateOption == NoPeriod then []
    else SortByKey(Filter(all, AppointmentFilter(profileFilter, range)), AppointmentKey())
  }

  /** The medication list holds exactly the records passing the name, profile and date
      filters, each as often as it was recorded, most recent first. */
  lemma MedicationHistoryViewShows(all: seq<MedicationHistory>, nameFilter: string, profileFilter: string, range: DateRange)
    ensures var r := MedicationHistoryView(all, nameFilter, profileFilter, range);
      (forall h :: h in r <==> h in all && RecordShown(h, nameFilter, profileFilter, range)) &&
      (forall i, j :: 0 <= i < j < |r| ==> r[i].administeredTime >= r[j].administeredTime) &&
      (forall h :: multiset(r)[h] == if RecordShown(h, nameFilter, profileFilter, range) then multiset(all)[h] else 0)
  {
    var kept := Filter(all, RecordFilter(nameFilter, profileFilter, range));
    SortByKeyMembers(kept, HistoryKey());
    FilterCount(all, RecordFilter(nameFilter, profileFilter, range));
    var r := SortByKey(kept, HistoryKey());
    assert forall i, j :: 0 <= i < j < |r| ==> HistoryKey()(r[i]) <= HistoryKey()(r[j]);
  }

  /** The food list holds exactly the entries passing the type, unit, profile and date
      filters, each as often as it was recorded, most recent first. */
  lemma FoodViewShows(all: seq<FoodEntry>, typeFilter: string, unitFilter: string, profileFilter: string, range: DateRange)
    ensures var r := FoodView(all, typeFilter, unitFilter, profileFilter, range);
      (forall f :: f in r <==> f in all && FoodShown(f, typeFilter, unitFilter, profileFilter, range)) &&
      (forall i, j :: 0 <= i < j < |r| ==> r[i].time >= r[j].time) &&
      (forall f :: multiset(r)[f] == if FoodShown(f, typeFilter, unitFilter, profileFilter, range) then multiset(all)[f] else 0)
  {
    var kept := Filter(all, FoodFilter(typeFilter, unitFilter, profileFilter, range));
    SortByKeyMembers(kept, FoodKey());
    FilterCount(all, FoodFilter(typeFilter, unitFilter, profileFilter, range));
    var r := SortByKey(kept, FoodKey());
    assert forall i, j :: 0 <= i < j < |r| ==> FoodKey()(r[i]) <= FoodKey()(r[j]);
  }

  /** Once a period is chosen, the appointment list holds exactly the appointments passing
      the profile and date filters, latest first; before, it is empty. */
  lemma AppointmentViewShows(all: seq<MedicalAppointment>, dateOption: string, profileFilter: string, range: DateRange)
    ensures var r := AppointmentView(all, dateOption, profileFilter, range);
      (dateOption == NoPeriod ==> r == []) &&
      (dateOption != NoPeriod ==>
        (forall a :: a in r <==> a in all && AppointmentShown(a, profileFilter, range)) &&
        (forall a :: multiset(r)[a] == if AppointmentShown(a, profileFilter, range) then multiset(all)[a] else 0)) &&
      (forall i, j :: 0 <= i < j < |r| ==> r[i].appointmentDate >= r[j].appointmentDate)
  {
    if dateOption != NoPeriod {
      var kept := Filter(all, AppointmentFilter(profileFilter, range));
      SortByKeyMembers(kept, AppointmentKey());
      FilterCount(all, AppointmentFilter(profileFilter, range));
      var r := SortByKey(kept, AppointmentKey());
      assert forall i, j :: 0 <= i < j < |r| ==> AppointmentKey()(r[i]) <= AppointmentKey()(r[j]);
    }
  }

  // ---------------------------------------------------------------------------
  // What the filters can and cannot show.

  /** Four of the unit options name no unit, so choosing one empties the food list; "g"
      shows only entries in grams. */
  lemma DeadUnitOptionsShowNothing(all: seq<FoodEntry>, typeFilter: string, unitFilter: string,
    profileFilter: string, range: DateRange)
    requires unitFilter in UnitOptions()[2..]
    ensures FoodView(all, typeFilter, unitFilter, profileFilter, range) == []
    ensures forall f :: f in FoodView(all, typeFilter, "g", profileFilter, range) ==> f.unit == Gram
  {
    var shown := FoodFilter(typeFilter, unitFilter, profileFilter, range);
    assert unitFilter != AllOption && UnitForDisplayText(unitFilter).None?;
    FilterNone(all, shown);
    FoodViewShows(all, typeFilter, "g", profileFilter, range);
    forall f | f in FoodView(all, typeFilter, "g", profileFilter, range) ensures f.unit == Gram {
      DisplayTextInjective(f.unit, Gram);
    }
  }

  /** Records are made under the main screen's profiles, none of which is "Niño": that
      profile filter empties the medication list. */
  lemma ChildProfileShowsNothing(all: seq<MedicationHistory>, nameFilter: string, range: DateRange)
    requires forall h :: h in all ==> h.userType in MainViewModels.UserTypes()
    ensures ProfileOptions()[2] == "Niño"
    ensures MedicationHistoryView(all, nameFilter, "Niño", range) == []
  {
    var shown := RecordFilter(nameFilter, "Niño", range);
    forall h | h in all ensures !shown(h) {
      assert h.userType in MainViewModels.UserTypes();
    }
    FilterNone(all, shown);
  }

  /** Before a period is chosen, no appointment is listed, while records and food entries
      are filtered by nothing but their name/type, unit and profile filters. */
  lemma NoPeriodShowsNoAppointments(history: seq<MedicationHistory>, foods: seq<FoodEntry>,
    appointments: seq<MedicalAppointment>, now: Instant, months: MonthStarts,
    customStart: Option<Instant>, customEnd: Option<Instant>, nameFilter: string, typeFilter: string,
    unitFilter: string, profileFilter: string)
    requires forall h :: h in history ==> MinInstant <= h.administeredTime <= MaxInstant
    requires forall f :: f in foods ==> MinInstant <= f.time <= MaxInstant
    ensures var range := HistoryDateRange(NoPeriod, now, months, customStart, customEnd);
      AppointmentView(appointments, NoPeriod, profileFilter, range) == [] &&
      (forall h :: h in MedicationHistoryView(history, nameFilter, profileFilter, range) <==>
        h in history && NameGuard(nameFilter)(h) && RecordProfileGuard(profileFilter)(h)) &&
      (forall f :: f in FoodView(foods, typeFilter, unitFilter, profileFilter, range) <==>
        f in foods && FoodTypeGuard(typeFilter)(f) && UnitGuard(unitFilter)(f) && FoodProfileGuard(profileFilter)(f))
  {
    var range := HistoryDateRange(NoPeriod, now, months, customStart, customEnd);
    assert range == FullRange;
    MedicationHistoryViewShows(history, nameFilter, profileFilter, range);
    FoodViewShows(foods, typeFilter, unitFilter, profileFilter, range);
  }

  function RecordNames(history: seq<MedicationHistory>): (r: seq<string>)
    ensures |r| == |history| && forall k :: 0 <= k < |r| ==> r[k] == history[k].medicationName
  {
    seq(|history|, k requires 0 <= k < |history| => history[k].medicationName)
  }

  function FoodTypesOf(foods: seq<FoodEntry>): (r: seq<string>)
    ensures |r| == |foods| && forall k :: 0 <= k < |r| ==> r[k] == foods[k].foodType
  {
    seq(|foods|, k requires 0 <= k < |foods| => foods[k].foodType)
  }

  /** The medication filter's choices after "Todos": each recorded name exactly once. */
  lemma MedicationChoicesAreRecordedNames(history: seq<MedicationHistory>)
    ensures var names := SortedDistinct(RecordNames(history));
      (forall n :: n in names <==> exists h :: h in history && h.medicationName == n) &&
      (forall i, j :: 0 <= i < j < |names| ==> names[i] != names[j])
  {
    var names := SortedDistinct(RecordNames(history));
    SortedDistinctSpec(RecordNames(history));
    StrictlyAscendingDistinct(names);
    forall n ensures n in names <==> exists h :: h in history && h.medicationName == n {
      if n in names {
        var k :| 0 <= k < |RecordNames(history)| && RecordNames(history)[k] == n;
        assert history[k] in history;
      }
      if exists h :: h in history && h.medicationName == n {
        var h :| h in history && h.medicationName == n;
        var k :| 0 <= k < |history| && history[k] == h;
        assert RecordNames(history)[k] == n;
      }
    }
  }

  /** The food-type filter's choices after "Todos": each recorded food type exactly once. */
  lemma FoodTypeChoicesAreRecordedTypes(foods: seq<FoodEntry>)
    ensures var types := SortedDistinct(FoodTypesOf(foods));
      (forall t :: t in types <==> exists f :: f in foods && f.foodType == t) &&
      (forall i, j :: 0 <= i < j < |types| ==> types[i] != types[j])
  {
    var types := SortedDistinct(FoodTypesOf(foods));
    SortedDistinctSpec(FoodTypesOf(foods));
    StrictlyAscendingDistinct(types);
    forall t ensures t in types <==> exists f :: f in foods && f.foodType == t {
      if t in types {
        var k :| 0 <= k < |FoodTypesOf(foods)| && FoodTypesOf(foods)[k] == t;
        assert foods[k] in foods;
      }
      if exists f :: f in foods && f.foodType == t {
        var f :| f in foods && f.foodType == t;
        var k :| 0 <= k < |foods| && foods[k] == f;
        assert FoodTypesOf(foods)[k] == t;
      }
    }
  }

  /** Choosing a recorded name shows all of that medication's records within the profile
      and period, and nothing else. */
  lemma ChoiceSelectsItsRecords(history: seq<MedicationHistory>, name: string, profileFilter: string, range: DateRange)
    requires name != AllOption
    ensures forall h :: h in MedicationHistoryView(history, name, profileFilter, range) <==>
      h in history && h.medicationName == name && RecordProfileGuard(profileFilter)(h) && Within(h.administeredTime, range)
  {
    MedicationHistoryViewShows(history, name, profileFilter, range);
  }

  // ---------------------------------------------------------------------------
  // `ApplyFilters`' three pipelines, each stage a `Where` applied only when its
  // filter is not "Todos".

  /** The medication records the filters keep, most recent first. */
  method FilterMedicationHistory(all: seq<MedicationHistory>, nameFilter: string, profileFilter: string,
    range: DateRange) returns (r: seq<MedicationHistory>)
    ensures r == MedicationHistoryView(all, nameFilter, profileFilter, range)
  {
    var byName := all;
    if nameFilter != AllOption {
      byName := Retain(all, NameGuard(nameFilter));
    } else {
      FilterAll(all, NameGuard(nameFilter));
    }
    var byProfile := byName;
    if profileFilter != AllOption {
      byProfile := Retain(byName, RecordProfileGuard(profileFilter));
    } else {
      FilterAll(byName, RecordProfileGuard(profileFilter));
    }
    var inRange := Retain(byProfile, AdministeredWithin(range));
    ThreeStages(all, NameGuard(nameFilter), RecordProfileGuard(profileFilter), AdministeredWithin(range),
      RecordFilter(nameFilter, profileFilter, range));
    r := SortByKey(inRange, HistoryKey());
  }

  /** The food entries the filters keep, most recent first. */
  method FilterFoodHistory(all: seq<FoodEntry>, typeFilter: string, unitFilter: string, profileFilter: string,
    range: DateRange) returns (r: seq<FoodEntry>)
    ensures r == FoodView(all, typeFilter, unitFilter, profileFilter, range)
  {
    var byType := all;
    if typeFilter != AllOption {
      byType := Retain(all, FoodTypeGuard(typeFilter));
    } else {
      FilterAll(all, FoodTypeGuard(typeFilter));
    }
    var byUnit := byType;
    if unitFilter != AllOption {
      byUnit := Retain(byType, UnitGuard(unitFilter));
    } else {
      FilterAll(byType, UnitGuard(unitFilter));
    }
    var byProfile := byUnit;
    if profileFilter != AllOption {
      byProfile := Retain(byUnit, FoodProfileGuard(profileFilter));
    } else {
      FilterAll(byUnit, FoodProfileGuard(profileFilter));
    }
    var inRange := Retain(byProfile, EatenWithin(range));
    FourStages(all, FoodTypeGuard(typeFilter), UnitGuard(unitFilter), FoodProfileGuard(profileFilter),
      EatenWithin(range), FoodFilter(typeFilter, unitFilter, profileFilter, range));
    r := SortByKey(inRange, FoodKey());
  }

  /** The appointments the filters keep, latest first; none before a period is chosen. */
  method FilterAppointments(all: seq<MedicalAppointment>, dateOption: string, profileFilter: string,
    range: DateRange) returns (r: seq<MedicalAppointment>)
    ensures r == AppointmentView(all, dateOption, profileFilter, range)
  {
    r := [];
    if dateOption != NoPeriod {
      var byProfile := all;
      if profileFilter != AllOption {
        byProfile := Retain(all, AppointmentProfileGuard(profileFilter));
      } else {
        FilterAll(all, AppointmentProfileGuard(profileFilter));
      }
      var inRange := Retain(byProfile, ScheduledWithin(range));
      FilterAnd(all, AppointmentProfileGuard(profileFilter), ScheduledWithin(range), AppointmentFilter(profileFilter, range));
      r := SortByKey(inRange, AppointmentKey());
    }
  }

  /** The appointment list shows only appointments it was given: when all of them are
      confirmed, so is every one shown. */
  lemma ConfirmedStayConfirmed(all: seq<MedicalAppointment>, dateOption: string, profileFilter: string, range: DateRange)
    requires forall a :: a in all ==> a.isConfirmed
    ensures forall a :: a in AppointmentView(all, dateOption, profileFilter, range) ==> a.isConfirmed
  {
    AppointmentViewShows(all, dateOption, profileFilter, range);
  }

  /** Keeping the confirmed appointments keeps nothing else. */
  lemma OnlyConfirmedKept(appointments: seq<MedicalAppointment>)
    ensures forall a :: a in Filter(appointments, ConfirmedAppointment()) ==> a.isConfirmed
  {
  }

  // ---------------------------------------------------------------------------
  // The view-model.

  class HistoryViewModel {
    var allMedicationHistory: seq<MedicationHistory>
    var allFoodHistory: seq<FoodEntry>
    var allAppointments: seq<MedicalAppointment>
    var filteredMedicationHistory: seq<MedicationHistory>
    var filteredFoodHistory: seq<FoodEntry>
    var filteredAppointments: seq<MedicalAppointment>
    var medicationNames: seq<string>
    var foodTypes: seq<string>
    var selectedMedicationFilter: string
    var selectedFoodTypeFilter: string
    var selectedUnitFilter: string
    var selectedProfileFilter: string
    var selectedDateRangeFilter: string
    var customStartDate: Option<Instant>
    var customEndDate: Option<Instant>

    /** Only confirmed appointments are ever held or shown, and a custom range is either
        unset or two dates in order. */
    ghost predicate Valid()
      reads this
    {
      (forall a :: a in allAppointments ==> a.isConfirmed) &&
      (forall a :: a in filteredAppointments ==> a.isConfirmed) &&
      (customStartDate.Some? <==> customEndDate.Some?) &&
      (customStartDate.Some? ==> customStartDate.value <= customEndDate.value)
    }

    /** The three lists are what the filters make of the loaded records. */
    ghost predicate ListsFiltered(now: Instant, months: MonthStarts)
      reads this
    {
      var range := HistoryDateRange(selectedDateRangeFilter, now, months, customStartDate, customEndDate);
      filteredMedicationHistory == MedicationHistoryView(allMedicationHistory, selectedMedicationFilter, selectedProfileFilter, range) &&
      filteredFoodHistory == FoodView(allFoodHistory, selectedFoodTypeFilter, selectedUnitFilter, selectedProfileFilter, range) &&
      filteredAppointments == AppointmentView(allAppointments, selectedDateRangeFilter, selectedProfileFilter, range)
    }

    /** The constructor: every filter at its default, then the records are loaded. */
    constructor (history: seq<MedicationHistory>, foods: seq<FoodEntry>, appointments: seq<MedicalAppointment>,
      now: Instant, months: MonthStarts)
      ensures Valid() && ListsFiltered(now, months)
      ensures selectedMedicationFilter == AllOption && selectedFoodTypeFilter == AllOption
      ensures selectedUnitFilter == AllOption && selectedProfileFilter == AllOption
      ensures selectedDateRangeFilter == NoPeriod && customStartDate.None? && customEndDate.None?
      ensures filteredAppointments == []
      ensures allAppointments == Filter(appointments, ConfirmedAppointment())
    {
      allMedicationHistory := [];
      allFoodHistory := [];
      allAppointments := [];
      filteredMedicationHistory := [];
      filteredFoodHistory := [];
      filteredAppointments := [];
      medicationNames := [AllOption];
      foodTypes := [AllOption];
      selectedMedicationFilter := AllOption;
      selectedFoodTypeFilter := AllOption;
      selectedUnitFilter := AllOption;
      selectedProfileFilter := AllOption;
      selectedDateRangeFilter := NoPeriod;
      customStartDate := None;
      customEndDate := None;
      new;
      LoadHistory(history, foods, appointments, now, months);
    }

    /** `LoadHistoryAsync`, given what the database returns: records and food entries
        most recent first, only the confirmed appointments, fresh filter choices, and
        the lists filtered. */
    method LoadHistory(history: seq<MedicationHistory>, foods: seq<FoodEntry>, appointments: seq<MedicalAppointment>,
      now: Instant, months: MonthStarts)
      requires Valid()
      modifies this
      ensures Valid() && ListsFiltered(now, months)
      ensures allMedicationHistory == SortByKey(history, HistoryKey())
      ensures allFoodHistory == SortByKey(foods, FoodKey())
      ensures allAppointments == Filter(appointments, ConfirmedAppointment())
      ensures medicationNames == [AllOption] + SortedDistinct(RecordNames(allMedicationHistory))
      ensures foodTypes == [AllOption] + SortedDistinct(FoodTypesOf(allFoodHistory))
      ensures selectedMedicationFilter == old(selectedMedicationFilter) && selectedFoodTypeFilter == old(selectedFoodTypeFilter)
      ensures selectedUnitFilter == old(selectedUnitFilter) && selectedProfileFilter == old(selectedProfileFilter)
      ensures selectedDateRangeFilter == old(selectedDateRangeFilter)
      ensures customStartDate == old(customStartDate) && customEndDate == old(customEndDate)
    {
      ReplaceRecords(history, foods, appointments);
      UpdateAvailableFilters();
      ApplyFilters(now, months);
    }

    /** The loading half of `LoadHistoryAsync`: the records replace the held ones, and
        the appointment list shown is cleared until a period is chosen. */
    method ReplaceRecords(history: seq<MedicationHistory>, foods: seq<FoodEntry>, appointments: seq<MedicalAppointment>)
      requires Valid()
      modifies this`allMedicationHistory, this`allFoodHistory, this`allAppointments, this`filteredAppointments
      ensures Valid()
      ensures allMedicationHistory == SortByKey(history, HistoryKey())
      ensures allFoodHistory == SortByKey(foods, FoodKey())
      ensures allAppointments == Filter(appointments, ConfirmedAppointment())
      ensures filteredAppointments == []
      ensures medicationNames == old(medicationNames) && foodTypes == old(foodTypes)
      ensures filteredMedicationHistory == old(filteredMedicationHistory) && filteredFoodHistory == old(filteredFoodHistory)
      ensures selectedMedicationFilter == old(selectedMedicationFilter) && selectedFoodTypeFilter == old(selectedFoodTypeFilter)
      ensures selectedUnitFilter == old(selectedUnitFilter) && selectedProfileFilter == old(selectedProfileFilter)
      ensures selectedDateRangeFilter == old(selectedDateRangeFilter)
      ensures customStartDate == old(customStartDate) && customEndDate == old(customEndDate)
    {
      SortRecords(history, foods);
      KeepConfirmedAppointments(appointments);
    }

    /** The records and food entries, most recent first. */
    method SortRecords(history: seq<MedicationHistory>, foods: seq<FoodEntry>)
      modifies this`allMedicationHistory, this`allFoodHistory
      ensures allMedicationHistory == SortByKey(history, HistoryKey())
      ensures allFoodHistory == SortByKey(foods, FoodKey())
    {
      allMedicationHistory := SortByKey(history, HistoryKey());
      allFoodHistory := SortByKey(foods, FoodKey());
    }

    /** Only the confirmed appointments are held; none is shown until a period is chosen. */
    method KeepConfirmedAppointments(appointments: seq<MedicalAppointment>)
      modifies this`allAppointments, this`filteredAppointments
      ensures allAppointments == Filter(appointments, ConfirmedAppointment())
      ensures forall a :: a in allAppointments ==> a.isConfirmed
      ensures filteredAppointments == []
    {
      OnlyConfirmedKept(appointments);
      allAppointments := Filter(appointments, ConfirmedAppointment());
      filteredAppointments := [];
    }

    /** `UpdateAvailableFilters`: "Todos" and then the distinct names (and food types)
        in order. */
    method UpdateAvailableFilters()
      modifies this
      ensures medicationNames == [AllOption] + SortedDistinct(RecordNames(allMedicationHistory))
      ensures foodTypes == [AllOption] + SortedDistinct(FoodTypesOf(allFoodHistory))
      ensures allMedicationHistory == old(allMedicationHistory) && allFoodHistory == old(allFoodHistory)
      ensures allAppointments == old(allAppointments)
      ensures filteredMedicationHistory == old(filteredMedicationHistory) && filteredFoodHistory == old(filteredFoodHistory)
      ensures filteredAppointments == old(filteredAppointments)
      ensures selectedMedicationFilter == old(selectedMedicationFilter) && selectedFoodTypeFilter == old(selectedFoodTypeFilter)
      ensures selectedUnitFilter == old(selectedUnitFilter) && selectedProfileFilter == old(selectedProfileFilter)
      ensures selectedDateRangeFilter == old(selectedDateRangeFilter)
      ensures customStartDate == old(customStartDate) && customEndDate == old(customEndDate)
    {
      medicationNames := [AllOption] + SortedDistinct(RecordNames(allMedicationHistory));
      foodTypes := [AllOption] + SortedDistinct(FoodTypesOf(allFoodHistory));
    }

    /** `ApplyFilters`: rebuilds the three lists from the loaded records and the current
        filters. */
    method ApplyFilters(now: Instant, months: MonthStarts)
      requires Valid()
      modifies this`filteredMedicationHistory, this`filteredFoodHistory, this`filteredAppointments
      ensures Valid() && ListsFiltered(now, months)
      ensures allMedicationHistory == old(allMedicationHistory) && allFoodHistory == old(allFoodHistory)
      ensures allAppointments == old(allAppointments)
      ensures medicationNames == old(medicationNames) && foodTypes == old(foodTypes)
      ensures selectedMedicationFilter == old(selectedMedicationFilter) && selectedFoodTypeFilter == old(selectedFoodTypeFilter)
      ensures selectedUnitFilter == old(selectedUnitFilter) && selectedProfileFilter == old(selectedProfileFilter)
      ensures selectedDateRangeFilter == old(selectedDateRangeFilter)
      ensures customStartDate == old(customStartDate) && customEndDate == old(customEndDate)
    {
      var range := HistoryDateRange(selectedDateRangeFilter, now, months, customStartDate, customEndDate);
      var meds := FilterMedicationHistory(allMedicationHistory, selectedMedicationFilter, selectedProfileFilter, range);
      var foods := FilterFoodHistory(allFoodHistory, selectedFoodTypeFilter, selectedUnitFilter, selectedProfileFilter, range);
      var appointments := FilterAppointments(allAppointments, selectedDateRangeFilter, selectedProfileFilter, range);
      ConfirmedStayConfirmed(allAppointments, selectedDateRangeFilter, selectedProfileFilter, range);
      filteredMedicationHistory, filteredFoodHistory, filteredAppointments := meds, foods, appointments;
    }

    /** The medication filter's setter: set, then filter. */
    method SetMedicationFilter(value: string, now: Instant, months: MonthStarts)
      requires Valid()
      modifies this
      ensures Valid() && ListsFiltered(now, months) && selectedMedicationFilter == value
      ensures allMedicationHistory == old(allMedicationHistory) && allFoodHistory == old(allFoodHistory)
      ensures allAppointments == old(allAppointments)
      ensures selectedFoodTypeFilter == old(selectedFoodTypeFilter) && selectedUnitFilter == old(selectedUnitFilter)
      ensures selectedProfileFilter == old(selectedProfileFilter) && selectedDateRangeFilter == old(selectedDateRangeFilter)
      ensures medicationNames == old(medicationNames) && foodTypes == old(foodTypes)
      ensures customStartDate == old(customStartDate) && customEndDate == old(customEndDate)
    {
      selectedMedicationFilter := value;
      ApplyFilters(now, months);
    }

    /** The food-type filter's setter. */
    method SetFoodTypeFilter(value: string, now: Instant, months: MonthStarts)
      requires Valid()
      modifies this
      ensures Valid() && ListsFiltered(now, months) && selectedFoodTypeFilter == value
      ensures allMedicationHistory == old(allMedicationHistory) && allFoodHistory == old(allFoodHistory)
      ensures allAppointments == old(allAppointments)
      ensures selectedMedicationFilter == old(selectedMedicationFilter) && selectedUnitFilter == old(selectedUnitFilter)
      ensures selectedProfileFilter == old(selectedProfileFilter) && selectedDateRangeFilter == old(selectedDateRangeFilter)
      ensures medicationNames == old(medicationNames) && foodTypes == old(foodTypes)
      ensures customStartDate == old(customStartDate) && customEndDate == old(customEndDate)
    {
      selectedFoodTypeFilter := value;
      ApplyFilters(now, months);
    }

    /** The unit filter's setter. */
    method SetUnitFilter(value: string, now: Instant, months: MonthStarts)
      requires Valid()
      modifies this
      ensures Valid() && ListsFiltered(now, months) && selectedUnitFilter == value
      ensures allMedicationHistory == old(allMedicationHistory) && allFoodHistory == old(allFoodHistory)
      ensures allAppointments == old(allAppointments)
      ensures selectedMedicationFilter == old(selectedMedicationFilter) && selectedFoodTypeFilter == old(selectedFoodTypeFilter)
      ensures selectedProfileFilter == old(selectedProfileFilter) && selectedDateRangeFilter == old(selectedDateRangeFilter)
      ensures medicationNames == old(medicationNames) && foodTypes == old(foodTypes)
      ensures customStartDate == old(customStartDate) && customEndDate == old(customEndDate)
    {
      selectedUnitFilter := value;
      ApplyFilters(now, months);
    }

    /** The profile filter's setter: the profile applies to all three lists. */
    method SetProfileFilter(value: string, now: Instant, months: MonthStarts)
      requires Valid()
      modifies this
      ensures Valid() && ListsFiltered(now, months) && selectedProfileFilter == value
      ensures allMedicationHistory == old(allMedicationHistory) && allFoodHistory == old(allFoodHistory)
      ensures allAppointments == old(allAppointments)
      ensures selectedMedicationFilter == old(selectedMedicationFilter) && selectedFoodTypeFilter == old(selectedFoodTypeFilter)
      ensures selectedUnitFilter == old(selectedUnitFilter) && selectedDateRangeFilter == old(selectedDateRangeFilter)
      ensures medicationNames == old(medicationNames) && foodTypes == old(foodTypes)
      ensures customStartDate == old(customStartDate) && customEndDate == old(customEndDate)
    {
      selectedProfileFilter := value;
      ApplyFilters(now, months);
    }

    /** The date-range setter: choosing the custom range opens the date prompts (answered
        through `CompleteCustomRange`) and filters nothing yet; any other choice filters. */
    method SetDateRangeFilter(value: string, now: Instant, months: MonthStarts)
      requires Valid()
      modifies this
      ensures Valid() && selectedDateRangeFilter == value
      ensures value != CustomRangeOption ==> ListsFiltered(now, months)
      ensures value == CustomRangeOption ==>
        filteredMedicationHistory == old(filteredMedicationHistory) &&
        filteredFoodHistory == old(filteredFoodHistory) && filteredAppointments == old(filteredAppointments)
      ensures allMedicationHistory == old(allMedicationHistory) && allFoodHistory == old(allFoodHistory)
      ensures allAppointments == old(allAppointments)
      ensures customStartDate == old(customStartDate) && customEndDate == old(customEndDate)
      ensures medicationNames == old(medicationNames) && foodTypes == old(foodTypes)
      ensures selectedMedicationFilter == old(selectedMedicationFilter) && selectedFoodTypeFilter == old(selectedFoodTypeFilter)
      ensures selectedUnitFilter == old(selectedUnitFilter) && selectedProfileFilter == old(selectedProfileFilter)
    {
      selectedDateRangeFilter := value;
      if value != CustomRangeOption {
        ApplyFilters(now, months);
      }
    }

    /** `ShowCustomDateRangePicker` after its prompts: two dates in order become the
        custom range and the lists are filtered by it; an empty or malformed answer, or
        an end before the start, switches the option to "Todo el historial" without
        filtering again. */
    method CompleteCustomRange(start: DateInput, end: DateInput, now: Instant, months: MonthStarts)
      requires Valid()
      modifies this
      ensures Valid()
      ensures start.Entered? && end.Entered? && start.date <= end.date ==>
        customStartDate == Some(start.date) && customEndDate == Some(end.date) &&
        selectedDateRangeFilter == old(selectedDateRangeFilter) && ListsFiltered(now, months)
      ensures !(start.Entered? && end.Entered? && start.date <= end.date) ==>
        selectedDateRangeFilter == WholeHistory &&
        customStartDate == old(customStartDate) && customEndDate == old(customEndDate) &&
        filteredMedicationHistory == old(filteredMedicationHistory) &&
        filteredFoodHistory == old(filteredFoodHistory) && filteredAppointments == old(filteredAppointments)
      ensures allMedicationHistory == old(allMedicationHistory) && allFoodHistory == old(allFoodHistory)
      ensures allAppointments == old(allAppointments)
      ensures medicationNames == old(medicationNames) && foodTypes == old(foodTypes)
      ensures selectedMedicationFilter == old(selectedMedicationFilter) && selectedFoodTypeFilter == old(selectedFoodTypeFilter)
      ensures selectedUnitFilter == old(selectedUnitFilter) && selectedProfileFilter == old(selectedProfileFilter)
    {
      if start.Empty? || end.Empty? {
        selectedDateRangeFilter := WholeHistory;
        return;
      }
      if start.Entered? && end.Entered? {
        if end.date < start.date {
          selectedDateRangeFilter := WholeHistory;
          return;
        }
        customStartDate := Some(start.date);
        customEndDate := Some(end.date);
        ApplyFilters(now, months);
      } else {
        selectedDateRangeFilter := WholeHistory;
      }
    }
  }
}
