// The medication dose scheduler: the in-memory lists of medications, scheduled
// doses and administered doses, and the operations that regenerate, confirm,
// re-time, group, delete and combine them.

module DataServices {
  import opened Wrappers
  import opened Time
  import opened Sequences
  import opened Medications
  import opened Doses
  import opened Records
  import opened NextDose
  import opened DoseSchedule

  // ---------------------------------------------------------------------------
  // Which doses a regeneration touches.

  /** A dose the scheduler may discard and regenerate: unconfirmed, of this medication. */
  predicate IsPendingOf(d: MedicationDose, medicationId: int) {
    d.medicationId == medicationId && !d.isConfirmed
  }

  function PendingOfMedication(medicationId: int): MedicationDose -> bool {
    (d: MedicationDose) => IsPendingOf(d, medicationId)
  }

  function NotPendingOf(medicationId: int): MedicationDose -> bool {
    (d: MedicationDose) => !IsPendingOf(d, medicationId)
  }

  function OfMedication(medicationId: int): MedicationDose -> bool {
    (d: MedicationDose) => d.medicationId == medicationId
  }

  function NotOfMedication(medicationId: int): MedicationDose -> bool {
    (d: MedicationDose) => d.medicationId != medicationId
  }

  function Unconfirmed(): MedicationDose -> bool { (d: MedicationDose) => !d.isConfirmed }
  function ConfirmedOnly(): MedicationDose -> bool { (d: MedicationDose) => d.isConfirmed }

  function HistoryNotOf(medicationId: int): MedicationHistory -> bool {
    (h: MedicationHistory) => h.medicationId != medicationId
  }

  /** The doses left after removing the pending ones of `medicationId`. */
  function KeepNonPending(doses: seq<MedicationDose>, medicationId: int): seq<MedicationDose> {
    Filter(doses, NotPendingOf(medicationId))
  }

  /** The scheduled times of a list of doses, in order. */
  function Times(doses: seq<MedicationDose>): (r: seq<Instant>)
    ensures |r| == |doses|
    ensures forall k :: 0 <= k < |r| ==> r[k] == doses[k].scheduledTime
  {
    seq(|doses|, k requires 0 <= k < |doses| => doses[k].scheduledTime)
  }

  /** The pending schedule of one medication, as a list of times. */
  function PendingTimes(doses: seq<MedicationDose>, medicationId: int): seq<Instant> {
    Times(Filter(doses, PendingOfMedication(medicationId)))
  }

  lemma TimesOfPendingDoses(medicationId: int, times: seq<Instant>, firstId: int)
    ensures Times(PendingDoses(medicationId, times, firstId)) == times
  {
  }

  /** Replacing the pending doses of medication `a` by freshly generated pending doses of
      `a`: the pending doses of `a` become exactly the new ones, and the confirmed doses,
      the other doses of `a`, and every dose of every other medication stay as they were,
      in their order. */
  lemma {:induction false} ReplacePendingFrame(doses: seq<MedicationDose>, a: int, generated: seq<MedicationDose>)
    requires forall d :: d in generated ==> IsPendingOf(d, a)
    ensures var r := KeepNonPending(doses, a) + generated;
      Filter(r, PendingOfMedication(a)) == generated &&
      Filter(r, NotPendingOf(a)) == KeepNonPending(doses, a) &&
      Filter(r, ConfirmedOnly()) == Filter(doses, ConfirmedOnly()) &&
      (forall b :: b != a ==> Filter(r, OfMedication(b)) == Filter(doses, OfMedication(b)))
  {
    var kept := KeepNonPending(doses, a);
    assert Filter(kept + generated, PendingOfMedication(a)) == generated by {
      FilterAppend(kept, generated, PendingOfMedication(a));
      FilterNone(kept, PendingOfMedication(a));
      FilterAll(generated, PendingOfMedication(a));
    }
    assert Filter(kept + generated, NotPendingOf(a)) == kept by {
      FilterAppend(kept, generated, NotPendingOf(a));
      FilterIdempotent(doses, NotPendingOf(a));
      FilterNone(generated, NotPendingOf(a));
    }
    assert Filter(kept + generated, ConfirmedOnly()) == Filter(doses, ConfirmedOnly()) by {
      FilterAppend(kept, generated, ConfirmedOnly());
      FilterNone(generated, ConfirmedOnly());
      FilterNarrow(doses, NotPendingOf(a), ConfirmedOnly());
    }
    forall b | b != a
      ensures Filter(kept + generated, OfMedication(b)) == Filter(doses, OfMedication(b))
    {
      FilterAppend(kept, generated, OfMedication(b));
      FilterNone(generated, OfMedication(b));
      FilterNarrow(doses, NotPendingOf(a), OfMedication(b));
    }
  }

  /** What another medication's doses are, its pending schedule is. */
  lemma PendingTimesFromDosesOf(x: seq<MedicationDose>, y: seq<MedicationDose>, b: int)
    requires Filter(x, OfMedication(b)) == Filter(y, OfMedication(b))
    ensures PendingTimes(x, b) == PendingTimes(y, b)
  {
    FilterNarrow(x, OfMedication(b), PendingOfMedication(b));
    FilterNarrow(y, OfMedication(b), PendingOfMedication(b));
  }

  // ---------------------------------------------------------------------------
  // Lookups.

  /** `Medications.FirstOrDefault(m => m.Id == id)`. */
  function FindMedication(medications: seq<Medication>, id: int): (r: Option<Medication>)
    ensures r.Some? ==> r.value in medications && r.value.id == id
    ensures r.None? <==> forall m :: m in medications ==> m.id != id
  {
    if medications == [] then None
    else if medications[0].id == id then Some(medications[0])
    else FindMedication(medications[1..], id)
  }

  ghost predicate UniqueIds(medications: seq<Medication>) {
    forall i, j :: 0 <= i < j < |medications| ==> medications[i].id != medications[j].id
  }

  /** With distinct ids the lookup finds the one medication carrying the id. */
  lemma {:induction false} FindUnique(medications: seq<Medication>, i: int)
    requires UniqueIds(medications) && 0 <= i < |medications|
    ensures FindMedication(medications, medications[i].id) == Some(medications[i])
  {
    if i > 0 {
      var tail := medications[1..];
      assert UniqueIds(tail) by {
        forall p, q | 0 <= p < q < |tail| ensures tail[p].id != tail[q].id {
          assert tail[p] == medications[p + 1] && tail[q] == medications[q + 1];
        }
      }
      assert medications[0].id != medications[i].id;
      FindUnique(tail, i - 1);
    }
  }

  /** `MedicationHistory.Any(h => h.MedicationId == id)`. */
  predicate HasHistory(history: seq<MedicationHistory>, id: int) {
    exists h :: h in history && h.medicationId == id
  }

  function Max(a: int, b: int): int { if a < b then b else a }

  /** The latest `AdministeredTime` recorded for a medication, if any. */
  function LatestAdministered(history: seq<MedicationHistory>, id: int): (r: Option<Instant>)
    ensures r.None? <==> !HasHistory(history, id)
    ensures r.Some? ==> exists h :: h in history && h.medicationId == id && h.administeredTime == r.value
    ensures r.Some? ==> forall h :: h in history && h.medicationId == id ==> h.administeredTime <= r.value
  {
    if history == [] then None
    else
      assert history == [history[0]] + history[1..];
      var rest := LatestAdministered(history[1..], id);
      if history[0].medicationId != id then rest
      else if rest.None? then Some(history[0].administeredTime)
      else Some(Max(history[0].administeredTime, rest.value))
  }

  function HistoryOf(id: int): MedicationHistory -> bool { (h: MedicationHistory) => h.medicationId == id }

  /** The head of a list sorted by descending administration time is a latest one. */
  lemma HeadIsLatest(sorted: seq<MedicationHistory>)
    requires sorted != [] && SortedByKey(sorted, HistoryKey())
    ensures forall h :: h in sorted ==> h.administeredTime <= sorted[0].administeredTime
  {
    forall h | h in sorted ensures h.administeredTime <= sorted[0].administeredTime {
      var j :| 0 <= j < |sorted| && sorted[j] == h;
      if j > 0 {
        assert HistoryKey()(sorted[0]) <= HistoryKey()(sorted[j]);
      }
    }
  }

  /** The records of `id`, most recent first, as the code orders them. */
  function LatestFirst(history: seq<MedicationHistory>, id: int): seq<MedicationHistory> {
    SortByKey(Filter(history, HistoryOf(id)), HistoryKey())
  }

  lemma LatestFirstMembers(history: seq<MedicationHistory>, id: int)
    ensures forall h :: h in LatestFirst(history, id) <==> h in history && h.medicationId == id
    ensures SortedByKey(LatestFirst(history, id), HistoryKey())
  {
    var mine := Filter(history, HistoryOf(id));
    SortByKeyMembers(mine, HistoryKey());
    forall h | h in history && h.medicationId == id ensures h in mine {
      assert HistoryOf(id)(h);
    }
  }

  /** The code finds the latest record with `Where(…).OrderByDescending(h => h.AdministeredTime).FirstOrDefault()`:
      the head of that sorted list carries exactly `LatestAdministered`. */
  lemma LatestIsHeadOfDescendingOrder(history: seq<MedicationHistory>, id: int)
    ensures LatestFirst(history, id) == [] <==> LatestAdministered(history, id).None?
    ensures LatestFirst(history, id) != [] ==>
      LatestAdministered(history, id) == Some(LatestFirst(history, id)[0].administeredTime)
  {
    var sorted := LatestFirst(history, id);
    LatestFirstMembers(history, id);
    if sorted != [] {
      HeadIsLatest(sorted);
    }
    HeadOfDescendingIsLatest(sorted, history, id);
  }

  lemma HeadOfDescendingIsLatest(sorted: seq<MedicationHistory>, history: seq<MedicationHistory>, id: int)
    requires forall h :: h in sorted <==> h in history && h.medicationId == id
    requires sorted != [] ==> forall h :: h in sorted ==> h.administeredTime <= sorted[0].administeredTime
    ensures sorted == [] <==> LatestAdministered(history, id).None?
    ensures sorted != [] ==> LatestAdministered(history, id) == Some(sorted[0].administeredTime)
  {
    var r := LatestAdministered(history, id);
    if sorted != [] {
      var top := sorted[0];
      assert top in sorted;
      assert HasHistory(history, id);
      var h :| h in history && h.medicationId == id && h.administeredTime == r.value;
      assert h in sorted;
      assert h.administeredTime <= top.administeredTime <= r.value;
    } else {
      assert forall h :: h in history ==> h.medicationId != id;
    }
  }

  // ---------------------------------------------------------------------------
  // Where each regenerator starts and stops.

  /** The history record `GenerateDosesForMedicationAsync` adds when the first dose was
      already taken. */
  function FirstDoseRecord(m: Medication, id: int, userType: string): (h: MedicationHistory)
    ensures h.medicationId == m.id && h.administeredTime == m.firstDoseTime
    ensures h.medicationName == m.name && h.dose == m.dose && h.userType == userType
  {
    MedicationHistory(id, m.id, m.name, m.dose, m.firstDoseTime, userType, "")
  }

  /** The first generated dose: one interval after a first dose already taken, otherwise
      the first dose time rolled forward to now. */
  function GenerationStart(m: Medication, firstDoseAlreadyTaken: bool, now: Instant): Instant {
    if firstDoseAlreadyTaken then AddMinutes(m.firstDoseTime, TotalFrequencyInMinutes(m))
    else RollForward(m.firstDoseTime, now)
  }

  /** The times `GenerateDosesForMedicationAsync` schedules: `days` days from its start. */
  function GeneratedTimes(m: Medication, days: int, firstDoseAlreadyTaken: bool, now: Instant): seq<Instant>
    requires TotalFrequencyInMinutes(m) > 0
  {
    var start := GenerationStart(m, firstDoseAlreadyTaken, now);
    Schedule(start, Step(TotalFrequencyInMinutes(m)), AddDays(start, days))
  }

  /** The first dose `RecalculateNextDosesFromLastConfirmedAsync` schedules: one interval
      after the latest administration, or the catch-up slot when nothing was administered. */
  function RecalculationStart(m: Medication, history: seq<MedicationHistory>, now: Instant): Instant
    requires TotalFrequencyInMinutes(m) > 0
  {
    match LatestAdministered(history, m.id)
    case Some(t) => AddMinutes(t, TotalFrequencyInMinutes(m))
    case None => CalculateNextDoseFromFirstDose(m.firstDoseTime, TotalFrequencyInMinutes(m), now)
  }

  /** The times `RecalculateNextDosesFromLastConfirmedAsync` schedules: up to `days` days from now. */
  function RecalculatedTimes(m: Medication, history: seq<MedicationHistory>, days: int, now: Instant): seq<Instant>
    requires TotalFrequencyInMinutes(m) > 0
  {
    Schedule(RecalculationStart(m, history, now), Step(TotalFrequencyInMinutes(m)), AddDays(now, days))
  }

  /** Where the generator starts, as the code promises: without a reported first dose
      the schedule never starts in the past, keeps the first dose's clock time once that
      is past, and is the first dose itself while that is ahead; with one, it starts one
      interval after it. */
  lemma GenerationStartFacts(m: Medication, firstDoseAlreadyTaken: bool, now: Instant)
    requires TotalFrequencyInMinutes(m) > 0
    ensures var s := GenerationStart(m, firstDoseAlreadyTaken, now);
      (firstDoseAlreadyTaken ==> s == m.firstDoseTime + Step(TotalFrequencyInMinutes(m))) &&
      (!firstDoseAlreadyTaken ==> s >= now) &&
      (!firstDoseAlreadyTaken && m.firstDoseTime >= now ==> s == m.firstDoseTime) &&
      (!firstDoseAlreadyTaken && m.firstDoseTime < now ==>
        TimeOfDay(s) == TimeOfDay(m.firstDoseTime) && s < now + SecondsPerDay)
  {
  }

  /** Where the recalculation starts, as the code promises: one interval after the latest
      administration when there is one; otherwise the first dose itself while that is
      ahead, or the earliest slot of the first dose's grid at or after now. */
  lemma RecalculationStartFacts(m: Medication, history: seq<MedicationHistory>, now: Instant)
    requires TotalFrequencyInMinutes(m) > 0
    ensures var s := RecalculationStart(m, history, now);
      var step := Step(TotalFrequencyInMinutes(m));
      (HasHistory(history, m.id) ==>
        (exists h :: h in history && h.medicationId == m.id && s == h.administeredTime + step) &&
        (forall h :: h in history && h.medicationId == m.id ==> h.administeredTime + step <= s)) &&
      (!HasHistory(history, m.id) && m.firstDoseTime >= now ==> s == m.firstDoseTime) &&
      (!HasHistory(history, m.id) && m.firstDoseTime < now ==>
        s >= now && s - step < now && (s - m.firstDoseTime) % step == 0)
  {
  }

  // ---------------------------------------------------------------------------
  // The combined timeline.

  /** The timeline entry for an administered dose. */
  function HistoryEvent(h: MedicationHistory): MedicationEvent {
    MedicationEvent(h.id, h.medicationId, h.medicationName, h.dose, h.administeredTime, true, h.id, true)
  }

  /** The timeline entry for a pending dose; name and dose come from the medication the
      dose belongs to, or are empty when there is none. */
  function DoseEvent(d: MedicationDose, medications: seq<Medication>): MedicationEvent {
    var m := FindMedication(medications, d.medicationId);
    MedicationEvent(d.id, d.medicationId,
      if m.Some? then m.value.name else "",
      if m.Some? then m.value.dose else "",
      d.scheduledTime, false, d.id, false)
  }

  function HistoryEvents(history: seq<MedicationHistory>): (r: seq<MedicationEvent>)
    ensures |r| == |history|
    ensures forall k :: 0 <= k < |r| ==> r[k] == HistoryEvent(history[k])
  {
    seq(|history|, k requires 0 <= k < |history| => HistoryEvent(history[k]))
  }

  function DoseEvents(doses: seq<MedicationDose>, medications: seq<Medication>): (r: seq<MedicationEvent>)
    ensures |r| == |doses|
    ensures forall k :: 0 <= k < |r| ==> r[k] == DoseEvent(doses[k], medications)
  {
    seq(|doses|, k requires 0 <= k < |doses| => DoseEvent(doses[k], medications))
  }

  /** `RebuildCombinedEvents`' first loop: one event per administered dose. */
  method CollectHistoryEvents(history: seq<MedicationHistory>) returns (list: seq<MedicationEvent>)
    ensures list == HistoryEvents(history)
  {
    list := [];
    var i := 0;
    while i < |history|
      invariant 0 <= i <= |history|
      invariant list == HistoryEvents(history[..i])
    {
      assert HistoryEvents(history[..i + 1]) == list + [HistoryEvent(history[i])];
      list := list + [HistoryEvent(history[i])];
      i := i + 1;
    }
    assert history[..|history|] == history;
  }

  /** `RebuildCombinedEvents`' second loop: one event per pending dose, after `list`. */
  method AppendDoseEvents(list: seq<MedicationEvent>, pending: seq<MedicationDose>, medications: seq<Medication>)
    returns (r: seq<MedicationEvent>)
    ensures r == list + DoseEvents(pending, medications)
  {
    r := list;
    var j := 0;
    while j < |pending|
      invariant 0 <= j <= |pending|
      invariant r == list + DoseEvents(pending[..j], medications)
    {
      assert DoseEvents(pending[..j + 1], medications) == DoseEvents(pending[..j], medications) + [DoseEvent(pending[j], medications)];
      r := r + [DoseEvent(pending[j], medications)];
      j := j + 1;
    }
    assert pending[..|pending|] == pending;
  }

  /** What `RebuildCombinedEvents` puts in `CombinedMedicationEvents`. */
  function CombinedEvents(history: seq<MedicationHistory>, doses: seq<MedicationDose>, medications: seq<Medication>): seq<MedicationEvent> {
    SortByKey(HistoryEvents(history) + DoseEvents(Filter(doses, Unconfirmed()), medications), EventKey())
  }

  /** The combined timeline holds one confirmed history event per administered dose and
      one unconfirmed scheduled event per pending dose, nothing for confirmed doses, and
      is ordered most recent first. */
  lemma CombinedEventsContents(history: seq<MedicationHistory>, doses: seq<MedicationDose>, medications: seq<Medication>)
    ensures var r := CombinedEvents(history, doses, medications);
      |r| == |history| + |Filter(doses, Unconfirmed())| &&
      (forall i, j :: 0 <= i < j < |r| ==> r[i].eventTime >= r[j].eventTime) &&
      (forall h :: h in history ==> HistoryEvent(h) in r) &&
      (forall d :: d in doses && !d.isConfirmed ==> DoseEvent(d, medications) in r) &&
      (forall e :: e in r ==> e.isHistory == e.isConfirmed) &&
      (forall e :: e in r && e.isHistory ==> exists h :: h in history && e == HistoryEvent(h)) &&
      (forall e :: e in r && !e.isHistory ==>
        exists d :: d in doses && !d.isConfirmed && e == DoseEvent(d, medications))
  {
    var pending := Filter(doses, Unconfirmed());
    var hs := HistoryEvents(history);
    var ds := DoseEvents(pending, medications);
    var r := CombinedEvents(history, doses, medications);
    SortByKeyMembers(hs + ds, EventKey());
    forall i, j | 0 <= i < j < |r| ensures r[i].eventTime >= r[j].eventTime {
      assert EventKey()(r[i]) <= EventKey()(r[j]);
    }
    forall h | h in history ensures HistoryEvent(h) in r {
      var k :| 0 <= k < |history| && history[k] == h;
      assert hs[k] == HistoryEvent(h);
      assert HistoryEvent(h) in hs + ds;
    }
    forall d | d in doses && !d.isConfirmed ensures DoseEvent(d, medications) in r {
      assert Unconfirmed()(d);
      var k :| 0 <= k < |pending| && pending[k] == d;
      assert ds[k] == DoseEvent(d, medications);
      assert DoseEvent(d, medications) in hs + ds;
    }
    forall e | e in r ensures e.isHistory == e.isConfirmed
      ensures e.isHistory ==> exists h :: h in history && e == HistoryEvent(h)
      ensures !e.isHistory ==> exists d :: d in doses && !d.isConfirmed && e == DoseEvent(d, medications)
    {
      assert e in hs + ds;
      if e in hs {
        var k :| 0 <= k < |hs| && hs[k] == e;
        assert history[k] in history;
      } else {
        var k :| 0 <= k < |ds| && ds[k] == e;
        assert pending[k] in pending;
        assert Unconfirmed()(pending[k]);
      }
    }
  }

  // ---------------------------------------------------------------------------
  // `GetDosesGroupedByDay`

  /** One group of `GroupBy(d => d.ScheduledTime.Date)`: a day and its doses. */
  datatype DayGroup = DayGroup(day: Instant, doses: seq<MedicationDose>)

  /** Groups consecutive doses falling on the same day. On a list ordered by time this is
      `GroupBy` on the date: one group per day, in order, each holding that day's doses. */
  function GroupByDay(s: seq<MedicationDose>): seq<DayGroup> {
    if s == [] then []
    else
      var rest := GroupByDay(s[1..]);
      var day := Date(s[0].scheduledTime);
      if rest != [] && rest[0].day == day then [DayGroup(day, [s[0]] + rest[0].doses)] + rest[1..]
      else [DayGroup(day, [s[0]])] + rest
  }

  function Flatten(groups: seq<DayGroup>): seq<MedicationDose> {
    if groups == [] then [] else groups[0].doses + Flatten(groups[1..])
  }

  function ScheduledKey(): MedicationDose -> int { (d: MedicationDose) => d.scheduledTime }

  ghost predicate WellGrouped(groups: seq<DayGroup>) {
    (forall g :: g in groups ==> g.doses != [] && forall d :: d in g.doses ==> Date(d.scheduledTime) == g.day) &&
    (forall i, j :: 0 <= i < j < |groups| ==> groups[i].day < groups[j].day)
  }

  /** Grouping loses and reorders nothing: the groups, read in order, are the input. */
  lemma {:induction false} GroupByDayFlatten(s: seq<MedicationDose>)
    ensures Flatten(GroupByDay(s)) == s
    ensures GroupByDay(s) != [] ==> GroupByDay(s)[0].day == Date(s[0].scheduledTime)
    decreases |s|
  {
    if s != [] {
      var rest := GroupByDay(s[1..]);
      GroupByDayFlatten(s[1..]);
      var day := Date(s[0].scheduledTime);
      if rest != [] && rest[0].day == day {
        var g := [DayGroup(day, [s[0]] + rest[0].doses)] + rest[1..];
        assert g[1..] == rest[1..];
        assert Flatten(rest) == rest[0].doses + Flatten(rest[1..]);
        assert s == [s[0]] + s[1..];
      } else {
        var g := [DayGroup(day, [s[0]])] + rest;
        assert g[1..] == rest;
        assert s == [s[0]] + s[1..];
      }
    }
  }

  /** On a list ordered by time, every group is non-empty and holds doses of its own day
      only, and the days strictly increase: each day appears in exactly one group. */
  lemma {:induction false} GroupByDayWellGrouped(s: seq<MedicationDose>)
    requires SortedByKey(s, ScheduledKey())
    ensures WellGrouped(GroupByDay(s))
    ensures forall g :: g in GroupByDay(s) ==> forall d :: d in g.doses ==> d in s
    decreases |s|
  {
    GroupMembersIn(s);
    if s != [] {
      var tail := s[1..];
      SortedTail(s);
      GroupByDayWellGrouped(tail);
      GroupByDayFlatten(tail);
      var rest := GroupByDay(tail);
      var day := Date(s[0].scheduledTime);
      if rest != [] {
        assert ScheduledKey()(s[0]) <= ScheduledKey()(s[1]);
        DateMonotone(s[0].scheduledTime, tail[0].scheduledTime);
      }
      if rest != [] && rest[0].day == day {
        MergeKeepsWellGrouped(s[0], rest);
      } else {
        PrependKeepsWellGrouped(s[0], rest);
      }
    }
  }

  lemma SortedTail(s: seq<MedicationDose>)
    requires s != [] && SortedByKey(s, ScheduledKey())
    ensures SortedByKey(s[1..], ScheduledKey())
  {
    var tail := s[1..];
    forall i, j | 0 <= i < j < |tail| ensures ScheduledKey()(tail[i]) <= ScheduledKey()(tail[j]) {
      assert tail[i] == s[i + 1] && tail[j] == s[j + 1];
    }
  }

  /** A dose of the first group's day joins that group. */
  lemma MergeKeepsWellGrouped(d: MedicationDose, rest: seq<DayGroup>)
    requires WellGrouped(rest) && rest != [] && rest[0].day == Date(d.scheduledTime)
    ensures WellGrouped([DayGroup(rest[0].day, [d] + rest[0].doses)] + rest[1..])
  {
    var g := [DayGroup(rest[0].day, [d] + rest[0].doses)] + rest[1..];
    forall i, j | 0 <= i < j < |g| ensures g[i].day < g[j].day {
      assert g[j] == rest[j];
      if i > 0 { assert g[i] == rest[i]; }
    }
    forall x | x in g ensures x.doses != [] && forall e :: e in x.doses ==> Date(e.scheduledTime) == x.day {
      if x != g[0] {
        var i :| 0 <= i < |g| && g[i] == x;
        assert x == rest[i];
      } else {
        assert rest[0] in rest;
      }
    }
  }

  /** A dose of an earlier day than every group opens a group of its own. */
  lemma PrependKeepsWellGrouped(d: MedicationDose, rest: seq<DayGroup>)
    requires WellGrouped(rest) && (rest != [] ==> Date(d.scheduledTime) < rest[0].day)
    ensures WellGrouped([DayGroup(Date(d.scheduledTime), [d])] + rest)
  {
    var g := [DayGroup(Date(d.scheduledTime), [d])] + rest;
    forall i, j | 0 <= i < j < |g| ensures g[i].day < g[j].day {
      assert g[j] == rest[j - 1];
      if i > 0 {
        assert g[i] == rest[i - 1];
      } else if j > 1 {
        assert rest[0].day < rest[j - 1].day;
      }
    }
    forall x | x in g ensures x.doses != [] && forall e :: e in x.doses ==> Date(e.scheduledTime) == x.day {
      if x != g[0] {
        var i :| 0 <= i < |g| && g[i] == x;
        assert x == rest[i - 1];
      }
    }
  }

  /** Every dose in a group comes from the grouped list. */
  lemma GroupMembersIn(s: seq<MedicationDose>)
    ensures forall g :: g in GroupByDay(s) ==> forall d :: d in g.doses ==> d in s
  {
    forall g, d | g in GroupByDay(s) && d in g.doses ensures d in s {
      GroupByDayFlatten(s);
      InFlatten(GroupByDay(s), g, d);
    }
  }

  lemma {:induction false} InFlatten(groups: seq<DayGroup>, g: DayGroup, d: MedicationDose)
    requires g in groups && d in g.doses
    ensures d in Flatten(groups)
    decreases |groups|
  {
    if groups[0] != g {
      InFlatten(groups[1..], g, d);
    }
  }

  lemma FirstOfFlatten(groups: seq<DayGroup>)
    requires groups != [] && groups[0].doses != []
    ensures Flatten(groups) != [] && Flatten(groups)[0] == groups[0].doses[0]
  {
  }

  lemma DateMonotone(a: Instant, b: Instant)
    requires a <= b
    ensures Date(a) <= Date(b)
  {
    if Date(b) < Date(a) {
      DayDifference(Date(a), Date(b));
      var k := (Date(a) - Date(b)) / SecondsPerDay;
      assert Date(a) - Date(b) == k * SecondsPerDay;
      PositiveFactor(k, SecondsPerDay);
    }
  }

  /** The doses `GetDosesGroupedByDay` looks at: all of them, or one medication's. */
  function SelectedDoses(doses: seq<MedicationDose>, medicationId: Option<int>): seq<MedicationDose> {
    if medicationId.Some? then Filter(doses, OfMedication(medicationId.value)) else doses
  }

  // ---------------------------------------------------------------------------
  // The service.

  class DataService {
    var medications: seq<Medication>
    var doses: seq<MedicationDose>
    var history: seq<MedicationHistory>
    var combinedEvents: seq<MedicationEvent>
    var currentUserType: string
    /** The ids the database's auto-increment hands out next. */
    var nextDoseId: int
    var nextHistoryId: int

    constructor ()
      ensures medications == [] && doses == [] && history == [] && combinedEvents == []
      ensures currentUserType == "Bebé"
      ensures nextDoseId == 1 && nextHistoryId == 1
    {
      medications := [];
      doses := [];
      history := [];
      combinedEvents := [];
      currentUserType := "Bebé";
      nextDoseId := 1;
      nextHistoryId := 1;
    }

    /** `RebuildCombinedEvents`. */
    method RebuildCombinedEvents()
      modifies this
      ensures combinedEvents == CombinedEvents(history, doses, medications)
      ensures medications == old(medications) && doses == old(doses) && history == old(history)
      ensures currentUserType == old(currentUserType)
      ensures nextDoseId == old(nextDoseId) && nextHistoryId == old(nextHistoryId)
    {
      var list := CollectHistoryEvents(history);
      var pending := Retain(doses, Unconfirmed());
      list := AppendDoseEvents(list, pending, medications);
      combinedEvents := SortByKey(list, EventKey());
    }

    /** Removes the pending doses of one medication, leaving every other dose in place. */
    method RemovePendingDoses(medicationId: int)
      modifies this
      ensures doses == KeepNonPending(old(doses), medicationId)
      ensures medications == old(medications) && history == old(history) && combinedEvents == old(combinedEvents)
      ensures currentUserType == old(currentUserType)
      ensures nextDoseId == old(nextDoseId) && nextHistoryId == old(nextHistoryId)
    {
      doses := Retain(doses, NotPendingOf(medicationId));
    }

    /** The generator loop: one new pending dose per slot `start + k·step` before `end`. */
    method AppendSchedule(medicationId: int, start: Instant, step: int, end: Instant)
      requires step > 0
      modifies this
      ensures doses == old(doses) + PendingDoses(medicationId, Schedule(start, step, end), old(nextDoseId))
      ensures nextDoseId == old(nextDoseId) + |Schedule(start, step, end)|
      ensures medications == old(medications) && history == old(history) && combinedEvents == old(combinedEvents)
      ensures currentUserType == old(currentUserType) && nextHistoryId == old(nextHistoryId)
    {
      var current := start;
      ghost var emitted: seq<Instant> := [];
      while current < end
        invariant Schedule(start, step, end) == emitted + Schedule(current, step, end)
        invariant doses == old(doses) + PendingDoses(medicationId, emitted, old(nextDoseId))
        invariant nextDoseId == old(nextDoseId) + |emitted|
        invariant medications == old(medications) && history == old(history) && combinedEvents == old(combinedEvents)
        invariant currentUserType == old(currentUserType) && nextHistoryId == old(nextHistoryId)
        decreases end - current
      {
        assert Schedule(current, step, end) == [current] + Schedule(current + step, step, end);
        assert emitted + Schedule(current, step, end) == (emitted + [current]) + Schedule(current + step, step, end);
        PendingDosesSnoc(medicationId, emitted, current, old(nextDoseId));
        doses := doses + [PendingDose(nextDoseId, medicationId, current)];
        nextDoseId := nextDoseId + 1;
        emitted := emitted + [current];
        current := current + step;
      }
      assert emitted == Schedule(start, step, end);
    }

    /** `GenerateDosesForMedicationAsync`: replaces the medication's pending doses by a
        fresh schedule of `days` days from its start, optionally records the first dose as
        taken, and rebuilds the timeline. */
    method GenerateDosesForMedication(medication: Medication, days: int, firstDoseAlreadyTaken: bool, now: Instant)
      requires TotalFrequencyInMinutes(medication) > 0
      modifies this
      ensures doses == KeepNonPending(old(doses), medication.id) +
        PendingDoses(medication.id, GeneratedTimes(medication, days, firstDoseAlreadyTaken, now), old(nextDoseId))
      ensures nextDoseId == old(nextDoseId) + |GeneratedTimes(medication, days, firstDoseAlreadyTaken, now)|
      ensures firstDoseAlreadyTaken ==>
        history == [FirstDoseRecord(medication, old(nextHistoryId), old(currentUserType))] + old(history) &&
        nextHistoryId == old(nextHistoryId) + 1
      ensures !firstDoseAlreadyTaken ==> history == old(history) && nextHistoryId == old(nextHistoryId)
      ensures combinedEvents == CombinedEvents(history, doses, medications)
      ensures medications == old(medications) && currentUserType == old(currentUserType)
    {
      RemovePendingDoses(medication.id);
      var frequency := TotalFrequencyInMinutes(medication);
      var firstDose := medication.firstDoseTime;
      if firstDoseAlreadyTaken {
        var record := FirstDoseRecord(medication, nextHistoryId, currentUserType);
        nextHistoryId := nextHistoryId + 1;
        history := [record] + history;
        firstDose := AddMinutes(firstDose, frequency);
      } else if firstDose < now {
        firstDose := Date(now) + TimeOfDay(medication.firstDoseTime);
        if firstDose < now {
          firstDose := AddDays(firstDose, 1);
        }
      }
      assert firstDose == GenerationStart(medication, firstDoseAlreadyTaken, now);
      AppendSchedule(medication.id, firstDose, Step(frequency), AddDays(firstDose, days));
      RebuildCombinedEvents();
    }

    /** `RecalculateNextDosesFromLastConfirmedAsync`: for a known medication, replaces its
        pending doses by a schedule from the recalculated start up to `days` days from now;
        for an unknown id, changes nothing. The timeline is not rebuilt. */
    method RecalculateNextDoses(medicationId: int, days: int, now: Instant)
      requires FindMedication(medications, medicationId).Some? ==>
        TotalFrequencyInMinutes(FindMedication(medications, medicationId).value) > 0
      modifies this
      ensures FindMedication(old(medications), medicationId).None? ==>
        doses == old(doses) && nextDoseId == old(nextDoseId)
      ensures FindMedication(old(medications), medicationId).Some? ==>
        var m := FindMedication(old(medications), medicationId).value;
        doses == KeepNonPending(old(doses), medicationId) +
          PendingDoses(medicationId, RecalculatedTimes(m, old(history), days, now), old(nextDoseId)) &&
        nextDoseId == old(nextDoseId) + |RecalculatedTimes(m, old(history), days, now)|
      ensures medications == old(medications) && history == old(history) && combinedEvents == old(combinedEvents)
      ensures currentUserType == old(currentUserType) && nextHistoryId == old(nextHistoryId)
    {
      var found := FindMedication(medications, medicationId);
      if found.None? {
        return;
      }
      var medication := found.value;
      var frequency := TotalFrequencyInMinutes(medication);
      var last := LatestAdministered(history, medicationId);
      var nextDoseTime: Instant;
      if last.Some? {
        nextDoseTime := AddMinutes(last.value, frequency);
      } else {
        nextDoseTime := medication.firstDoseTime;
        if nextDoseTime < now {
          var dosesElapsed := CeilDiv(now - nextDoseTime, Step(frequency));
          nextDoseTime := AddMinutes(medication.firstDoseTime, dosesElapsed * frequency);
        }
      }
      assert nextDoseTime == RecalculationStart(medication, history, now);
      RemovePendingDoses(medicationId);
      AppendSchedule(medication.id, nextDoseTime, Step(frequency), AddDays(now, days));
    }

    /** `AddMedicationAsync`: the medication, stamped with the current profile and the id
        the database assigns, joins the list and gets its first schedule. */
    method AddMedication(medication: Medication, assignedId: int, days: int, firstDoseAlreadyTaken: bool, now: Instant)
      requires TotalFrequencyInMinutes(medication) > 0
      modifies this
      ensures var added := medication.(id := assignedId, userType := old(currentUserType));
        medications == old(medications) + [added] &&
        doses == KeepNonPending(old(doses), assignedId) +
          PendingDoses(assignedId, GeneratedTimes(added, days, firstDoseAlreadyTaken, now), old(nextDoseId)) &&
        nextDoseId == old(nextDoseId) + |GeneratedTimes(added, days, firstDoseAlreadyTaken, now)| &&
        (firstDoseAlreadyTaken ==>
          history == [FirstDoseRecord(added, old(nextHistoryId), old(currentUserType))] + old(history) &&
          nextHistoryId == old(nextHistoryId) + 1)
      ensures !firstDoseAlreadyTaken ==> history == old(history) && nextHistoryId == old(nextHistoryId)
      ensures PositiveFrequencies(old(medications)) ==> PositiveFrequencies(medications)
      ensures combinedEvents == CombinedEvents(history, doses, medications)
      ensures currentUserType == old(currentUserType)
    {
      var added := medication.(id := assignedId, userType := currentUserType);
      medications := medications + [added];
      GenerateDosesForMedication(added, days, firstDoseAlreadyTaken, now);
    }

    /** `UpdateMedicationAsync` on the medication at `index`: the list holds the edited
        medication and the timeline is rebuilt (doses find their medication by id). */
    method UpdateMedication(index: int, medication: Medication)
      requires 0 <= index < |medications|
      modifies this
      ensures medications == old(medications)[index := medication]
      ensures doses == old(doses) && history == old(history)
      ensures combinedEvents == CombinedEvents(history, doses, medications)
      ensures currentUserType == old(currentUserType)
      ensures nextDoseId == old(nextDoseId) && nextHistoryId == old(nextHistoryId)
    {
      medications := medications[index := medication];
      RebuildCombinedEvents();
    }

    /** `SaveMedicationHistoryAsync`: the database gives the record its id; the in-memory
        history is left to the caller. */
    method SaveMedicationHistory(record: MedicationHistory) returns (saved: MedicationHistory)
      modifies this
      ensures saved == record.(id := old(nextHistoryId))
      ensures nextHistoryId == old(nextHistoryId) + 1
      ensures medications == old(medications) && doses == old(doses) && history == old(history)
      ensures combinedEvents == old(combinedEvents) && currentUserType == old(currentUserType)
      ensures nextDoseId == old(nextDoseId)
    {
      saved := record.(id := nextHistoryId);
      nextHistoryId := nextHistoryId + 1;
    }

    /** `RegenerateDosesAsync`: regenerates every medication's pending doses in turn.
        Confirmed doses and the history are untouched, doses of medications not in the
        list are untouched, and, when ids are distinct, each medication ends with exactly
        its regenerated schedule pending. */
    method RegenerateDoses(days: int, now: Instant)
      requires PositiveFrequencies(medications)
      modifies this
      ensures medications == old(medications) && history == old(history)
      ensures currentUserType == old(currentUserType) && nextHistoryId == old(nextHistoryId)
      ensures Filter(doses, ConfirmedOnly()) == Filter(old(doses), ConfirmedOnly())
      ensures forall b :: (forall m :: m in medications ==> m.id != b) ==>
        Filter(doses, OfMedication(b)) == Filter(old(doses), OfMedication(b))
      ensures UniqueIds(medications) ==> forall m :: m in medications ==>
        PendingTimes(doses, m.id) == RegeneratedTimes(m, history, days, now)
      ensures nextDoseId >= old(nextDoseId)
      ensures (forall k :: 0 <= k < |medications| ==> HasHistory(history, medications[k].id)) ==>
        combinedEvents == old(combinedEvents)
      ensures |medications| > 0 && !HasHistory(history, medications[|medications| - 1].id) ==>
        combinedEvents == CombinedEvents(history, doses, medications)
    {
      var i := 0;
      while i < |medications|
        invariant 0 <= i <= |medications|
        invariant medications == old(medications) && history == old(history)
        invariant currentUserType == old(currentUserType) && nextHistoryId == old(nextHistoryId)
        invariant RegenerationInvariant(medications, history, old(doses), doses, i, days, now)
        invariant nextDoseId >= old(nextDoseId)
        invariant (forall k :: 0 <= k < i ==> HasHistory(history, medications[k].id)) ==>
          combinedEvents == old(combinedEvents)
        invariant i > 0 && !HasHistory(history, medications[i - 1].id) ==>
          combinedEvents == CombinedEvents(history, doses, medications)
      {
        var medication := medications[i];
        assert medication in medications;
        ghost var before, firstId := doses, nextDoseId;
        if HasHistory(history, medication.id) {
          assert FindMedication(medications, medication.id).Some?;
          RecalculateNextDoses(medication.id, days, now);
        } else {
          GenerateDosesForMedication(medication, days, false, now);
        }
        RegenerationStep(medications, history, old(doses), before, doses, i, days, now, firstId);
        i := i + 1;
      }
      RegenerationDone(medications, history, old(doses), doses, days, now);
    }

    /** `SyncDosesWithHistoryAsync`: every medication with history has its pending doses
        recalculated for three days; medications without history keep their doses. */
    method SyncDosesWithHistory(now: Instant)
      requires PositiveFrequencies(medications)
      modifies this
      ensures medications == old(medications) && history == old(history) && combinedEvents == old(combinedEvents)
      ensures currentUserType == old(currentUserType) && nextHistoryId == old(nextHistoryId)
      ensures Filter(doses, ConfirmedOnly()) == Filter(old(doses), ConfirmedOnly())
      ensures forall b :: !HasHistory(history, b) ==>
        Filter(doses, OfMedication(b)) == Filter(old(doses), OfMedication(b))
      ensures UniqueIds(medications) ==> forall m :: m in medications && HasHistory(history, m.id) ==>
        PendingTimes(doses, m.id) == RecalculatedTimes(m, history, SyncDays, now)
    {
      var i := 0;
      while i < |medications|
        invariant 0 <= i <= |medications|
        invariant medications == old(medications) && history == old(history) && combinedEvents == old(combinedEvents)
        invariant currentUserType == old(currentUserType) && nextHistoryId == old(nextHistoryId)
        invariant SyncInvariant(medications, history, old(doses), doses, i, now)
      {
        var medication := medications[i];
        assert medication in medications;
        if HasHistory(history, medication.id) {
          ghost var before, firstId := doses, nextDoseId;
          assert FindMedication(medications, medication.id).Some?;
          RecalculateNextDoses(medication.id, SyncDays, now);
          SyncStep(medications, history, old(doses), before, doses, i, now, firstId);
        } else {
          SyncSkip(medications, history, old(doses), doses, i, now);
        }
        i := i + 1;
      }
      SyncDone(medications, history, old(doses), doses, now);
    }

    /** `ConfirmDoseAsync` on the dose at `index`. */
    method ConfirmDose(index: int, useScheduledTime: bool, now: Instant)
      requires 0 <= index < |doses|
      modifies this
      ensures doses == old(doses)[index := Confirm(old(doses)[index], useScheduledTime, now)]
      ensures medications == old(medications) && history == old(history) && combinedEvents == old(combinedEvents)
      ensures currentUserType == old(currentUserType)
      ensures nextDoseId == old(nextDoseId) && nextHistoryId == old(nextHistoryId)
    {
      var dose := doses[index];
      if dose.isConfirmed {
        return;
      }
      var actual := if useScheduledTime then dose.scheduledTime else now;
      doses := doses[index := dose.(isConfirmed := true, actualTime := Some(actual))];
    }

    /** `EditDoseTimeAsync` on the dose at `index`. */
    method EditDoseTime(index: int, newTime: Instant)
      requires 0 <= index < |doses|
      modifies this
      ensures doses == old(doses)[index := Retime(old(doses)[index], newTime)]
      ensures medications == old(medications) && history == old(history) && combinedEvents == old(combinedEvents)
      ensures currentUserType == old(currentUserType)
      ensures nextDoseId == old(nextDoseId) && nextHistoryId == old(nextHistoryId)
    {
      var dose := doses[index];
      dose := dose.(actualTime := Some(newTime));
      dose := dose.(scheduledTime := newTime);
      dose := dose.(isEdited := true);
      dose := dose.(isConfirmed := false);
      doses := doses[index := dose];
    }

    /** The in-memory side of `DeleteMedicationAsync`: drops the medication's history,
        all of its doses, and the medication itself. */
    method DeleteMedication(medication: Medication)
      modifies this
      ensures history == Filter(old(history), HistoryNotOf(medication.id))
      ensures doses == Filter(old(doses), NotOfMedication(medication.id))
      ensures medications == RemoveFirst(old(medications), medication)
      ensures combinedEvents == old(combinedEvents) && currentUserType == old(currentUserType)
      ensures nextDoseId == old(nextDoseId) && nextHistoryId == old(nextHistoryId)
    {
      history := Retain(history, HistoryNotOf(medication.id));
      doses := Retain(doses, NotOfMedication(medication.id));
      medications := RemoveFirst(medications, medication);
    }

    /** `GetDosesGroupedByDay`: the doses (all, or one medication's) ordered by time and
        grouped by day. */
    function GetDosesGroupedByDay(medicationId: Option<int>): (groups: seq<DayGroup>)
      reads this
      ensures WellGrouped(groups)
      ensures multiset(Flatten(groups)) == multiset(SelectedDoses(doses, medicationId))
      ensures SortedByKey(Flatten(groups), ScheduledKey())
    {
      var sorted := SortByKey(SelectedDoses(doses, medicationId), ScheduledKey());
      SortByKeySorts(SelectedDoses(doses, medicationId), ScheduledKey());
      GroupByDayWellGrouped(sorted);
      GroupByDayFlatten(sorted);
      GroupByDay(sorted)
    }
  }

  ghost predicate PositiveFrequencies(medications: seq<Medication>) {
    forall m :: m in medications ==> TotalFrequencyInMinutes(m) > 0
  }

  /** The pending schedule a regeneration of `days` days gives a medication: recalculated
      from the history when it has some, generated from its first dose otherwise. */
  function RegeneratedTimes(m: Medication, history: seq<MedicationHistory>, days: int, now: Instant): seq<Instant>
    requires TotalFrequencyInMinutes(m) > 0
  {
    if HasHistory(history, m.id) then RecalculatedTimes(m, history, days, now)
    else GeneratedTimes(m, days, false, now)
  }

  /** What the regeneration loop has achieved after its first `i` medications. */
  ghost predicate RegenerationInvariant(medications: seq<Medication>, history: seq<MedicationHistory>,
    original: seq<MedicationDose>, doses: seq<MedicationDose>, i: int, days: int, now: Instant)
    requires PositiveFrequencies(medications) && 0 <= i <= |medications|
  {
    Filter(doses, ConfirmedOnly()) == Filter(original, ConfirmedOnly()) &&
    (forall b :: (forall j :: 0 <= j < i ==> medications[j].id != b) ==>
      Filter(doses, OfMedication(b)) == Filter(original, OfMedication(b))) &&
    (UniqueIds(medications) ==> forall j :: 0 <= j < i ==>
      PendingTimes(doses, medications[j].id) == RegeneratedTimes(medications[j], history, days, now))
  }

  /** The schedule step `i` of the loop writes: the recalculation uses the first
      medication with the id, the generation the listed one. */
  function StepTimes(medications: seq<Medication>, history: seq<MedicationHistory>, i: int, days: int, now: Instant): seq<Instant>
    requires PositiveFrequencies(medications) && 0 <= i < |medications|
  {
    var a := medications[i].id;
    if HasHistory(history, a) then
      var m := FindMedication(medications, a).value;
      RecalculatedTimes(m, history, days, now)
    else GeneratedTimes(medications[i], days, false, now)
  }

  lemma RegenerationStep(medications: seq<Medication>, history: seq<MedicationHistory>,
    original: seq<MedicationDose>, before: seq<MedicationDose>, after: seq<MedicationDose>,
    i: int, days: int, now: Instant, firstId: int)
    requires PositiveFrequencies(medications) && 0 <= i < |medications|
    requires RegenerationInvariant(medications, history, original, before, i, days, now)
    requires after == KeepNonPending(before, medications[i].id) +
      PendingDoses(medications[i].id, StepTimes(medications, history, i, days, now), firstId)
    ensures RegenerationInvariant(medications, history, original, after, i + 1, days, now)
  {
    var a := medications[i].id;
    var times := StepTimes(medications, history, i, days, now);
    var generated := PendingDoses(a, times, firstId);
    ReplacePendingFrame(before, a, generated);
    TimesOfPendingDoses(a, times, firstId);
    if UniqueIds(medications) {
      FindUnique(medications, i);
      forall j | 0 <= j < i + 1
        ensures PendingTimes(after, medications[j].id) == RegeneratedTimes(medications[j], history, days, now)
      {
        if j < i {
          PendingTimesFromDosesOf(after, before, medications[j].id);
        }
      }
    }
  }

  lemma RegenerationDone(medications: seq<Medication>, history: seq<MedicationHistory>,
    original: seq<MedicationDose>, doses: seq<MedicationDose>, days: int, now: Instant)
    requires PositiveFrequencies(medications)
    requires RegenerationInvariant(medications, history, original, doses, |medications|, days, now)
    ensures forall b :: (forall m :: m in medications ==> m.id != b) ==>
      Filter(doses, OfMedication(b)) == Filter(original, OfMedication(b))
    ensures UniqueIds(medications) ==> forall m :: m in medications ==>
      PendingTimes(doses, m.id) == RegeneratedTimes(m, history, days, now)
  {
    forall b | forall m :: m in medications ==> m.id != b
      ensures Filter(doses, OfMedication(b)) == Filter(original, OfMedication(b))
    {
      assert forall j :: 0 <= j < |medications| ==> medications[j].id != b by {
        forall j | 0 <= j < |medications| ensures medications[j].id != b {
          assert medications[j] in medications;
        }
      }
    }
  }

  /** The number of days `SyncDosesWithHistoryAsync` schedules ahead. */
  const SyncDays: int := 3

  ghost predicate SyncInvariant(medications: seq<Medication>, history: seq<MedicationHistory>,
    original: seq<MedicationDose>, doses: seq<MedicationDose>, i: int, now: Instant)
    requires PositiveFrequencies(medications) && 0 <= i <= |medications|
  {
    Filter(doses, ConfirmedOnly()) == Filter(original, ConfirmedOnly()) &&
    (forall b :: (forall j :: 0 <= j < i && HasHistory(history, medications[j].id) ==> medications[j].id != b) ==>
      Filter(doses, OfMedication(b)) == Filter(original, OfMedication(b))) &&
    (UniqueIds(medications) ==> forall j :: 0 <= j < i && HasHistory(history, medications[j].id) ==>
      PendingTimes(doses, medications[j].id) == RecalculatedTimes(medications[j], history, SyncDays, now))
  }

  lemma SyncStep(medications: seq<Medication>, history: seq<MedicationHistory>,
    original: seq<MedicationDose>, before: seq<MedicationDose>, after: seq<MedicationDose>,
    i: int, now: Instant, firstId: int)
    requires PositiveFrequencies(medications) && 0 <= i < |medications|
    requires HasHistory(history, medications[i].id)
    requires SyncInvariant(medications, history, original, before, i, now)
    requires after == KeepNonPending(before, medications[i].id) +
      PendingDoses(medications[i].id, StepTimes(medications, history, i, SyncDays, now), firstId)
    ensures SyncInvariant(medications, history, original, after, i + 1, now)
  {
    var a := medications[i].id;
    var times := StepTimes(medications, history, i, SyncDays, now);
    var generated := PendingDoses(a, times, firstId);
    ReplacePendingFrame(before, a, generated);
    TimesOfPendingDoses(a, times, firstId);
    SyncKeepsUnprocessed(medications, history, original, before, after, i);
    if UniqueIds(medications) {
      FindUnique(medications, i);
      assert PendingTimes(after, a) == RecalculatedTimes(medications[i], history, SyncDays, now);
      SyncKeepsRecalculated(medications, history, before, after, i, now);
    }
  }

  /** A medication no step up to `i` has touched keeps its doses. */
  lemma SyncKeepsUnprocessed(medications: seq<Medication>, history: seq<MedicationHistory>,
    original: seq<MedicationDose>, before: seq<MedicationDose>, after: seq<MedicationDose>, i: int)
    requires 0 <= i < |medications| && HasHistory(history, medications[i].id)
    requires forall b :: (forall j :: 0 <= j < i && HasHistory(history, medications[j].id) ==> medications[j].id != b) ==>
      Filter(before, OfMedication(b)) == Filter(original, OfMedication(b))
    requires forall b :: b != medications[i].id ==> Filter(after, OfMedication(b)) == Filter(before, OfMedication(b))
    ensures forall b :: (forall j :: 0 <= j < i + 1 && HasHistory(history, medications[j].id) ==> medications[j].id != b) ==>
      Filter(after, OfMedication(b)) == Filter(original, OfMedication(b))
  {
    forall b | forall j :: 0 <= j < i + 1 && HasHistory(history, medications[j].id) ==> medications[j].id != b
      ensures Filter(after, OfMedication(b)) == Filter(original, OfMedication(b))
    {
      assert medications[i].id != b;
      assert forall j :: 0 <= j < i && HasHistory(history, medications[j].id) ==> medications[j].id != b;
    }
  }

  /** A medication recalculated by an earlier step keeps its recalculated schedule. */
  lemma SyncKeepsRecalculated(medications: seq<Medication>, history: seq<MedicationHistory>,
    before: seq<MedicationDose>, after: seq<MedicationDose>, i: int, now: Instant)
    requires PositiveFrequencies(medications) && 0 <= i < |medications|
    requires UniqueIds(medications)
    requires forall j :: 0 <= j < i && HasHistory(history, medications[j].id) ==>
      PendingTimes(before, medications[j].id) == RecalculatedTimes(medications[j], history, SyncDays, now)
    requires forall b :: b != medications[i].id ==> Filter(after, OfMedication(b)) == Filter(before, OfMedication(b))
    requires PendingTimes(after, medications[i].id) == RecalculatedTimes(medications[i], history, SyncDays, now)
    ensures forall j :: 0 <= j < i + 1 && HasHistory(history, medications[j].id) ==>
      PendingTimes(after, medications[j].id) == RecalculatedTimes(medications[j], history, SyncDays, now)
  {
    forall j | 0 <= j < i && HasHistory(history, medications[j].id)
      ensures PendingTimes(after, medications[j].id) == RecalculatedTimes(medications[j], history, SyncDays, now)
    {
      PendingTimesFromDosesOf(after, before, medications[j].id);
    }
  }

  /** A medication without history is skipped: nothing changes. */
  lemma SyncSkip(medications: seq<Medication>, history: seq<MedicationHistory>,
    original: seq<MedicationDose>, doses: seq<MedicationDose>, i: int, now: Instant)
    requires PositiveFrequencies(medications) && 0 <= i < |medications|
    requires !HasHistory(history, medications[i].id)
    requires SyncInvariant(medications, history, original, doses, i, now)
    ensures SyncInvariant(medications, history, original, doses, i + 1, now)
  {
  }

  lemma SyncDone(medications: seq<Medication>, history: seq<MedicationHistory>,
    original: seq<MedicationDose>, doses: seq<MedicationDose>, now: Instant)
    requires PositiveFrequencies(medications)
    requires SyncInvariant(medications, history, original, doses, |medications|, now)
    ensures forall b :: !HasHistory(history, b) ==>
      Filter(doses, OfMedication(b)) == Filter(original, OfMedication(b))
    ensures UniqueIds(medications) ==> forall m :: m in medications && HasHistory(history, m.id) ==>
      PendingTimes(doses, m.id) == RecalculatedTimes(m, history, SyncDays, now)
  {
    forall b | !HasHistory(history, b)
      ensures Filter(doses, OfMedication(b)) == Filter(original, OfMedication(b))
    {
      assert forall j :: 0 <= j < |medications| && HasHistory(history, medications[j].id) ==> medications[j].id != b;
    }
    forall m | m in medications && HasHistory(history, m.id) && UniqueIds(medications)
      ensures PendingTimes(doses, m.id) == RecalculatedTimes(m, history, SyncDays, now)
    {
      var j :| 0 <= j < |medications| && medications[j] == m;
    }
  }

  // ---------------------------------------------------------------------------
  // What confirming, re-timing and deleting do to the lists.

  /** Confirming a pending dose takes exactly one dose out of the pending list (and so
      one event out of the timeline's scheduled part); confirming a confirmed dose
      changes nothing. */
  lemma ConfirmShrinksPending(doses: seq<MedicationDose>, index: int, useScheduledTime: bool, now: Instant)
    requires 0 <= index < |doses|
    ensures var after := doses[index := Confirm(doses[index], useScheduledTime, now)];
      |Filter(after, Unconfirmed())| + (if doses[index].isConfirmed then 0 else 1) == |Filter(doses, Unconfirmed())| &&
      Filter(after, ConfirmedOnly()) ==
        (if doses[index].isConfirmed then Filter(doses, ConfirmedOnly())
         else Filter(doses[..index], ConfirmedOnly()) + [Confirm(doses[index], useScheduledTime, now)] + Filter(doses[index + 1..], ConfirmedOnly()))
  {
    var c := Confirm(doses[index], useScheduledTime, now);
    var after := doses[index := c];
    var pre, post := doses[..index], doses[index + 1..];
    assert doses == pre + [doses[index]] + post;
    assert after == pre + [c] + post;
    FilterAppend(pre + [doses[index]], post, Unconfirmed());
    FilterAppend(pre, [doses[index]], Unconfirmed());
    FilterAppend(pre + [c], post, Unconfirmed());
    FilterAppend(pre, [c], Unconfirmed());
    FilterAppend(pre + [doses[index]], post, ConfirmedOnly());
    FilterAppend(pre, [doses[index]], ConfirmedOnly());
    FilterAppend(pre + [c], post, ConfirmedOnly());
    FilterAppend(pre, [c], ConfirmedOnly());
    assert [c][..0] == [] && [doses[index]][..0] == [];
  }

  /** A re-timed dose is pending again, so the next regeneration of its medication
      discards it together with the edit. */
  lemma RetimedDoseIsDiscardedByRegeneration(doses: seq<MedicationDose>, index: int, newTime: Instant)
    requires 0 <= index < |doses|
    ensures var d := Retime(doses[index], newTime);
      IsPendingOf(d, d.medicationId) &&
      d !in KeepNonPending(doses[index := d], d.medicationId)
  {
  }

  /** After deleting a medication nothing refers to its id any more, the other
      medications' doses and records are kept in order, and the medication list loses
      exactly one copy of it. */
  lemma DeleteMedicationLeavesNoTrace(m: Medication, medications: seq<Medication>,
    doses: seq<MedicationDose>, history: seq<MedicationHistory>)
    ensures forall d :: d in Filter(doses, NotOfMedication(m.id)) ==> d.medicationId != m.id
    ensures forall h :: h in Filter(history, HistoryNotOf(m.id)) ==> h.medicationId != m.id
    ensures forall b :: b != m.id ==>
      Filter(Filter(doses, NotOfMedication(m.id)), OfMedication(b)) == Filter(doses, OfMedication(b))
    ensures m in medications ==> |RemoveFirst(medications, m)| == |medications| - 1
    ensures forall x :: x in medications && x != m ==> x in RemoveFirst(medications, m)
  {
    forall b | b != m.id
      ensures Filter(Filter(doses, NotOfMedication(m.id)), OfMedication(b)) == Filter(doses, OfMedication(b))
    {
      FilterNarrow(doses, NotOfMedication(m.id), OfMedication(b));
    }
    forall x | x in medications && x != m ensures x in RemoveFirst(medications, m) {
      if m in medications {
        assert x in multiset(medications);
        assert multiset(medications)[x] == multiset(RemoveFirst(medications, m))[x];
      }
    }
  }
}
