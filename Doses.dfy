// A scheduled dose, its status relative to the clock, and the two in-place
// edits the scheduler applies to it (confirmation and re-timing).

module Doses {
  import opened Wrappers
  import opened Time

  datatype MedicationDose = MedicationDose(
    id: int,
    medicationId: int,
    scheduledTime: Instant,
    actualTime: Option<Instant>,
    isConfirmed: bool,
    isEdited: bool)

  /** `new MedicationDose()`. */
  function NewDose(): (d: MedicationDose)
    ensures d.id == 0 && d.medicationId == 0 && d.scheduledTime == MinInstant
    ensures d.actualTime.None? && !d.isConfirmed && !d.isEdited
  {
    MedicationDose(0, 0, MinInstant, None, false, false)
  }

  /** A dose the generator loops create: pending and never edited. */
  function PendingDose(id: int, medicationId: int, t: Instant): (d: MedicationDose)
    ensures d.medicationId == medicationId && d.scheduledTime == t && d.id == id
    ensures !d.isConfirmed && !d.isEdited && d.actualTime.None?
  {
    MedicationDose(id, medicationId, t, None, false, false)
  }

  // ---------------------------------------------------------------------------
  // `Status`

  datatype DoseStatus = Confirmado | Atrasado | Proximo | Programado

  function StatusLabel(s: DoseStatus): string {
    match s
    case Confirmado => "Confirmado"
    case Atrasado => "Atrasado"
    case Proximo => "Próximo"
    case Programado => "Programado"
  }

  /** Half an hour, in seconds: the width of the "Próximo" window on each side. */
  const StatusWindow: int := 30 * SecondsPerMinute

  /** `Status`, with the clock read passed in as `now`. The code compares
      `(ScheduledTime - now).TotalMinutes` with -30 and 30; on whole seconds that is
      the same as comparing the difference in seconds with -1800 and 1800. */
  function Status(d: MedicationDose, now: Instant): DoseStatus {
    if d.isConfirmed then Confirmado
    else
      var diff := d.scheduledTime - now;
      if diff < -StatusWindow then Atrasado
      else if diff < StatusWindow then Proximo
      else Programado
  }

  /** Each status in terms of the dose and the clock, both directions: a confirmed dose
      is "Confirmado" whatever its time; otherwise the status says how far the scheduled
      time is from now. */
  lemma StatusCases(d: MedicationDose, now: Instant)
    ensures Status(d, now) == Confirmado <==> d.isConfirmed
    ensures Status(d, now) == Atrasado <==> !d.isConfirmed && d.scheduledTime < now - 1800
    ensures Status(d, now) == Proximo <==> !d.isConfirmed && now - 1800 <= d.scheduledTime < now + 1800
    ensures Status(d, now) == Programado <==> !d.isConfirmed && now + 1800 <= d.scheduledTime
  {
  }

  /** The order an unconfirmed dose goes through as the clock advances. */
  function Stage(s: DoseStatus): nat {
    match s
    case Programado => 0
    case Proximo => 1
    case Atrasado => 2
    case Confirmado => 3
  }

  /** As time passes, an unconfirmed dose only moves forward through
      Programado, Próximo, Atrasado, and never back. */
  lemma StatusAdvancesWithTime(d: MedicationDose, now: Instant, later: Instant)
    requires now <= later
    ensures Stage(Status(d, now)) <= Stage(Status(d, later))
  {
  }

  /** The status labels are pairwise distinct, so a label identifies the status. */
  lemma StatusLabelInjective(s: DoseStatus, t: DoseStatus)
    requires StatusLabel(s) == StatusLabel(t)
    ensures s == t
  {
    assert StatusLabel(s)[0] == StatusLabel(t)[0];
    if s.Proximo? || s.Programado? {
      assert StatusLabel(s)[1] == StatusLabel(t)[1];
    }
  }

  /** `DisplayTime` before formatting: the actual time if one was recorded, else the scheduled one. */
  function DisplayInstant(d: MedicationDose): Instant {
    d.actualTime.GetOr(d.scheduledTime)
  }

  // ---------------------------------------------------------------------------
  // The two field updates `DataService` performs on a dose.

  /** `ConfirmDoseAsync` on one dose: nothing happens to a dose already confirmed;
      otherwise it becomes confirmed, taken at the scheduled time or at `now`. */
  function Confirm(d: MedicationDose, useScheduledTime: bool, now: Instant): MedicationDose {
    if d.isConfirmed then d
    else d.(isConfirmed := true, actualTime := Some(if useScheduledTime then d.scheduledTime else now))
  }

  /** What confirming does, as observed through the dose's status and display time. */
  lemma ConfirmEffect(d: MedicationDose, useScheduledTime: bool, now: Instant, later: Instant)
    ensures var c := Confirm(d, useScheduledTime, now);
      Status(c, later) == Confirmado &&
      c.id == d.id && c.medicationId == d.medicationId && c.scheduledTime == d.scheduledTime &&
      c.isEdited == d.isEdited &&
      (!d.isConfirmed ==> DisplayInstant(c) == (if useScheduledTime then d.scheduledTime else now))
  {
  }

  /** Confirming twice is confirming once: the second call finds the dose confirmed. */
  lemma ConfirmIdempotent(d: MedicationDose, use1: bool, now1: Instant, use2: bool, now2: Instant)
    ensures Confirm(Confirm(d, use1, now1), use2, now2) == Confirm(d, use1, now1)
  {
  }

  /** `EditDoseTimeAsync` on one dose: both times become `newTime`, the dose is marked
      edited and goes back to pending. */
  function Retime(d: MedicationDose, newTime: Instant): MedicationDose {
    d.(actualTime := Some(newTime), scheduledTime := newTime, isEdited := true, isConfirmed := false)
  }

  /** A re-timed dose shows the new time, is pending again (so its status depends only
      on the new time), and only the last edit counts. */
  lemma RetimeEffect(d: MedicationDose, t: Instant, u: Instant, now: Instant)
    ensures DisplayInstant(Retime(d, t)) == t
    ensures Status(Retime(d, t), now) == Status(PendingDose(d.id, d.medicationId, t), now)
    ensures Retime(Retime(d, t), u) == Retime(d, u)
    ensures Retime(d, t).id == d.id && Retime(d, t).medicationId == d.medicationId
  {
  }
}
