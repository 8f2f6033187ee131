// The instants a generator loop emits: `start, start+f, start+2f, …` while
// strictly before a horizon (the scheduler), or while not after it (the
// inclusive variant written out in the scheduler's unit test).

module DoseSchedule {
  import opened Time
  import opened Doses
  import NextDose

  /** The times `while (current < end) { emit current; current += step }` emits. */
  function Schedule(start: Instant, step: int, horizon: Instant): seq<Instant>
    requires step > 0
    decreases horizon - start
  {
    if start < horizon then [start] + Schedule(start + step, step, horizon) else []
  }

  /** The times `while (current <= end) { … }` emits. */
  function ScheduleInclusive(start: Instant, step: int, horizon: Instant): seq<Instant>
    requires step > 0
    decreases horizon - start
  {
    if start <= horizon then [start] + ScheduleInclusive(start + step, step, horizon) else []
  }

  /** The k-th emitted time is exactly `start + k·step` (no drift), and the k-th slot is
      emitted exactly when it lies strictly before the horizon. */
  lemma {:induction false} ScheduleSlots(start: Instant, step: int, horizon: Instant)
    requires step > 0
    ensures var r := Schedule(start, step, horizon);
      (forall k :: 0 <= k < |r| ==> r[k] == start + k * step) &&
      (forall k: nat :: k < |r| <==> start + k * step < horizon)
    decreases horizon - start
  {
    var r := Schedule(start, step, horizon);
    if start < horizon {
      var rest := Schedule(start + step, step, horizon);
      ScheduleSlots(start + step, step, horizon);
      forall k | 0 <= k < |r| ensures r[k] == start + k * step {
        if k > 0 {
          assert r[k] == rest[k - 1];
          assert (k - 1) * step + step == k * step;
        }
      }
      forall k: nat ensures k < |r| <==> start + k * step < horizon {
        if k > 0 {
          assert start + step + (k - 1) * step == start + k * step;
        }
      }
    } else {
      forall k: nat ensures !(start + k * step < horizon) {
        NextDose.MulMonotone(0, k, step);
      }
    }
  }

  /** Emitted times are strictly increasing, the first is `start`, and all lie in
      `[start, horizon)`. */
  lemma ScheduleOrdered(start: Instant, step: int, horizon: Instant)
    requires step > 0
    ensures var r := Schedule(start, step, horizon);
      (forall i, j :: 0 <= i < j < |r| ==> r[i] < r[j]) &&
      (forall i :: 0 <= i < |r| ==> start <= r[i] < horizon) &&
      (r != [] <==> start < horizon)
  {
    var r := Schedule(start, step, horizon);
    ScheduleSlots(start, step, horizon);
    forall i, j | 0 <= i < j < |r| ensures r[i] < r[j] {
      assert r[i] == start + i * step && r[j] == start + j * step;
      NextDose.NextSlotNotAfter(i, j, step);
    }
    forall i | 0 <= i < |r| ensures start <= r[i] < horizon {
      assert r[i] == start + i * step;
      assert start + i * step < horizon;
      NextDose.MulMonotone(0, i, step);
    }
  }


  /** The number of doses emitted is the number of whole or partial intervals between
      start and horizon: `ceil((horizon - start) / step)` when positive. */
  lemma ScheduleLength(start: Instant, step: int, horizon: Instant)
    requires step > 0 && start < horizon
    ensures |Schedule(start, step, horizon)| == NextDose.CeilDiv(horizon - start, step)
  {
    var r := Schedule(start, step, horizon);
    var n := NextDose.CeilDiv(horizon - start, step);
    ScheduleSlots(start, step, horizon);
    NextDose.PositiveFactor(n, step);
    assert start + (n - 1) * step < horizon;
    assert !(start + n * step < horizon);
  }

  /** On whole seconds, "not after the horizon" is "before the next second". */
  lemma {:induction false} InclusiveIsExclusiveOneLater(start: Instant, step: int, horizon: Instant)
    requires step > 0
    ensures ScheduleInclusive(start, step, horizon) == Schedule(start, step, horizon + 1)
    decreases horizon - start
  {
    if start <= horizon {
      InclusiveIsExclusiveOneLater(start + step, step, horizon);
    }
  }

  /** When the horizon is itself a slot, the inclusive loop emits exactly one dose more
      than the scheduler's exclusive loop: the dose at the horizon. */
  lemma {:induction false} InclusiveAddsBoundarySlot(start: Instant, step: int, horizon: Instant, k: nat)
    requires step > 0 && horizon == start + k * step
    ensures ScheduleInclusive(start, step, horizon) == Schedule(start, step, horizon) + [horizon]
    decreases k
  {
    if k == 0 {
      assert start == horizon;
      assert ScheduleInclusive(start + step, step, horizon) == [];
    } else {
      assert horizon == (start + step) + (k - 1) * step;
      InclusiveAddsBoundarySlot(start + step, step, horizon, k - 1);
    }
  }

  /** The unit test's fixture: last dose 03:00, every 6 h, one day of coverage. The
      inclusive loop gives the four doses the test expects; the scheduler's exclusive
      loop stops at three, leaving out 03:00 of the next day. */
  lemma BoundaryExample()
    ensures var last := NextDose.At(24, 3, 0);
      var step := NextDose.Step(360);
      ScheduleInclusive(last + step, step, last + SecondsPerDay) ==
        [NextDose.At(24, 9, 0), NextDose.At(24, 15, 0), NextDose.At(24, 21, 0), NextDose.At(25, 3, 0)] &&
      Schedule(last + step, step, last + SecondsPerDay) ==
        [NextDose.At(24, 9, 0), NextDose.At(24, 15, 0), NextDose.At(24, 21, 0)]
  {
    var last := NextDose.At(24, 3, 0);
    var step := NextDose.Step(360);
    InclusiveAddsBoundarySlot(last + step, step, last + SecondsPerDay, 3);
  }

  // ---------------------------------------------------------------------------
  // The doses a generator loop appends.

  /** One new pending dose of `medicationId` per time, with consecutive ids from `firstId`
      (the database's auto-increment). */
  function PendingDoses(medicationId: int, times: seq<Instant>, firstId: int): (r: seq<MedicationDose>)
    ensures |r| == |times|
    ensures forall k :: 0 <= k < |r| ==> r[k] == PendingDose(firstId + k, medicationId, times[k])
  {
    seq(|times|, k requires 0 <= k < |times| => PendingDose(firstId + k, medicationId, times[k]))
  }

  /** Emitting one more time appends one more dose with the next id. */
  lemma PendingDosesSnoc(medicationId: int, times: seq<Instant>, t: Instant, firstId: int)
    ensures PendingDoses(medicationId, times + [t], firstId) ==
      PendingDoses(medicationId, times, firstId) + [PendingDose(firstId + |times|, medicationId, t)]
  {
  }

  /** Every appended dose belongs to the medication, is unconfirmed and unedited, and the
      scheduled times are the emitted times in order. */
  lemma PendingDosesShape(medicationId: int, times: seq<Instant>, firstId: int)
    ensures forall d :: d in PendingDoses(medicationId, times, firstId) ==>
      d.medicationId == medicationId && !d.isConfirmed && !d.isEdited && d.actualTime.None? && d.scheduledTime in times
  {
  }
}
