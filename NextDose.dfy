// Where a regenerated schedule starts: the "catch-up" slot (the first slot of
// the original grid at or after now) and the generator's roll-forward rule.

module NextDose {
  import opened Time

  /** `Math.Ceiling(a / b)` for a positive divisor, in exact integer arithmetic. */
  function CeilDiv(a: int, b: int): (q: int)
    requires b > 0
    ensures q * b >= a
    ensures (q - 1) * b < a
  {
    var n := a + b - 1;
    var q := n / b;
    var r := n % b;
    assert n == q * b + r && 0 <= r < b;
    assert q * b == n - r;
    assert (q - 1) * b == q * b - b;
    q
  }

  /** The step, in seconds, of a frequency given in minutes. */
  function Step(frequencyInMinutes: int): int { frequencyInMinutes * SecondsPerMinute }

  /** `CalculateNextDoseFromFirstDose`: a first dose still ahead of `current` is kept;
      otherwise the result is `firstDoseTime` plus as many whole intervals as have
      (partly) elapsed, rounded up. The same arithmetic is the no-history branch of
      `RecalculateNextDosesFromLastConfirmedAsync`. */
  function CalculateNextDoseFromFirstDose(firstDoseTime: Instant, frequencyInMinutes: int, current: Instant): (r: Instant)
    requires frequencyInMinutes > 0
    ensures firstDoseTime >= current ==> r == firstDoseTime
    ensures firstDoseTime < current ==>
      r >= current && r - Step(frequencyInMinutes) < current &&
      r > firstDoseTime && (r - firstDoseTime) % Step(frequencyInMinutes) == 0
  {
    if firstDoseTime >= current then firstDoseTime
    else
      var step := Step(frequencyInMinutes);
      var dosesElapsed := CeilDiv(current - firstDoseTime, step);
      PositiveFactor(dosesElapsed, step);
      MultipleMod(dosesElapsed, step);
      firstDoseTime + dosesElapsed * step
  }

  /** A positive multiple of a positive number has a positive factor. */
  lemma PositiveFactor(k: int, b: int)
    requires b > 0 && k * b > 0
    ensures k >= 1
  {
    if k <= 0 {
      MulMonotone(k, 0, b);
    }
  }

  /** `k·b` divides evenly by `b`, with quotient `k`. */
  lemma MultipleMod(k: int, b: int)
    requires b > 0
    ensures (k * b) % b == 0 && (k * b) / b == k
  {
    var q, r := (k * b) / b, (k * b) % b;
    assert (k - q) * b == r;
    if k - q >= 1 {
      MulMonotone(1, k - q, b);
    } else if k - q <= -1 {
      MulMonotone(k - q, -1, b);
    }
  }

  /** The catch-up result is the earliest slot `first + k·f` of the original grid that
      is not before `current`: no later slot is chosen, and none is skipped. */
  lemma {:induction false} NextDoseIsEarliestSlot(firstDoseTime: Instant, frequencyInMinutes: int, current: Instant, k: nat)
    requires frequencyInMinutes > 0
    requires firstDoseTime + k * Step(frequencyInMinutes) >= current
    ensures CalculateNextDoseFromFirstDose(firstDoseTime, frequencyInMinutes, current) <= firstDoseTime + k * Step(frequencyInMinutes)
  {
    var step := Step(frequencyInMinutes);
    var r := CalculateNextDoseFromFirstDose(firstDoseTime, frequencyInMinutes, current);
    if firstDoseTime < current {
      var j := (r - firstDoseTime) / step;
      assert r == firstDoseTime + j * step;
      if j > k {
        assert (j - 1) * step >= k * step by {
          assert j - 1 >= k;
          MulMonotone(k, j - 1, step);
        }
      }
      MulMonotone(j, k, step);
    }
  }

  lemma MulMonotone(a: int, b: int, c: int)
    requires a <= b && c > 0
    ensures a * c <= b * c
  {
  }

  /** Any time that is a grid slot at or after `current`, with the previous slot before
      `current`, is the catch-up result: the result is the unique such slot. */
  lemma NextDoseUnique(firstDoseTime: Instant, frequencyInMinutes: int, current: Instant, t: Instant)
    requires frequencyInMinutes > 0 && firstDoseTime < current
    requires t >= current && t - Step(frequencyInMinutes) < current
    requires (t - firstDoseTime) % Step(frequencyInMinutes) == 0
    ensures CalculateNextDoseFromFirstDose(firstDoseTime, frequencyInMinutes, current) == t
  {
    var step := Step(frequencyInMinutes);
    var r := CalculateNextDoseFromFirstDose(firstDoseTime, frequencyInMinutes, current);
    // Both are slots of the same grid lying in the window [current, current + step).
    var i := (r - firstDoseTime) / step;
    var j := (t - firstDoseTime) / step;
    ExactQuotient(r - firstDoseTime, step);
    ExactQuotient(t - firstDoseTime, step);
    if i < j {
      NextSlotNotAfter(i, j, step);
    } else if j < i {
      NextSlotNotAfter(j, i, step);
    }
  }

  /** A later slot of a grid is at least one step further on. */
  lemma NextSlotNotAfter(i: int, j: int, step: int)
    requires i < j && step > 0
    ensures i * step + step <= j * step
  {
    MulMonotone(i + 1, j, step);
    assert (i + 1) * step == i * step + step;
  }

  lemma ExactQuotient(x: int, b: int)
    requires b > 0 && x % b == 0
    ensures x == (x / b) * b
  {
  }

  /** An instant on a given day of October 2025 (day 1 = 1 October), at a clock time. */
  function At(day: int, hour: int, minute: int): Instant {
    (739524 + day - 1) * SecondsPerDay + hour * SecondsPerHour + minute * SecondsPerMinute
  }

  lemma CatchUpExamples()
    // First dose 08:00, every 8 h, now 23:00: next is midnight.
    ensures CalculateNextDoseFromFirstDose(At(20, 8, 0), 480, At(20, 23, 0)) == At(21, 0, 0)
    // First dose 00:05, every 8 h, now 23:00: three intervals elapsed, next is 00:05 the day after.
    ensures CeilDiv(At(20, 23, 0) - At(20, 0, 5), Step(480)) == 3
    ensures CalculateNextDoseFromFirstDose(At(20, 0, 5), 480, At(20, 23, 0)) == At(21, 0, 5)
    // First dose yesterday 15:00, every 6 h, now 10:00: next is 15:00 today.
    ensures CalculateNextDoseFromFirstDose(At(19, 15, 0), 360, At(20, 10, 0)) == At(20, 15, 0)
    // A first dose still in the future is kept.
    ensures CalculateNextDoseFromFirstDose(At(21, 9, 0), 720, At(20, 14, 0)) == At(21, 9, 0)
    // First dose 10:00, every 4 h 30 min, now 14:45: next is 19:00.
    ensures CalculateNextDoseFromFirstDose(At(20, 10, 0), 270, At(20, 14, 45)) == At(20, 19, 0)
  {
    NextDoseUnique(At(20, 8, 0), 480, At(20, 23, 0), At(21, 0, 0));
    NextDoseUnique(At(20, 0, 5), 480, At(20, 23, 0), At(21, 0, 5));
    NextDoseUnique(At(19, 15, 0), 360, At(20, 10, 0), At(20, 15, 0));
    NextDoseUnique(At(20, 10, 0), 270, At(20, 14, 45), At(20, 19, 0));
  }

  // ---------------------------------------------------------------------------
  // `GenerateDosesForMedicationAsync`'s start rule when the first dose was not
  // reported as taken.

  /** A first dose in the past moves to today's same clock time, or tomorrow's if
      that has passed too. */
  function RollForward(firstDoseTime: Instant, now: Instant): (s: Instant)
    ensures s >= now
    ensures firstDoseTime >= now ==> s == firstDoseTime
    ensures firstDoseTime < now ==> TimeOfDay(s) == TimeOfDay(firstDoseTime) && s - SecondsPerDay < now
  {
    if firstDoseTime < now then
      var today := Date(now) + TimeOfDay(firstDoseTime);
      SameClockTime(Date(now), TimeOfDay(firstDoseTime));
      if today < now then
        SameClockTime(Date(now) + SecondsPerDay, TimeOfDay(firstDoseTime));
        today + SecondsPerDay
      else today
    else firstDoseTime
  }

  /** A midnight plus a clock time has that clock time. */
  lemma SameClockTime(midnight: Instant, s: int)
    requires midnight % SecondsPerDay == 0 && 0 <= s < SecondsPerDay
    ensures TimeOfDay(midnight + s) == s
  {
    var k := midnight / SecondsPerDay;
    assert midnight + s == k * SecondsPerDay + s;
  }

  /** Rolling forward to the same clock time is the catch-up rule with a one-day
      interval: the two start rules of the scheduler agree on daily medications. */
  lemma RollForwardIsDailyCatchUp(firstDoseTime: Instant, now: Instant)
    requires firstDoseTime < now
    ensures RollForward(firstDoseTime, now) == CalculateNextDoseFromFirstDose(firstDoseTime, 1440, now)
  {
    var s := RollForward(firstDoseTime, now);
    assert Step(1440) == SecondsPerDay;
    // s and the first dose share their clock time, so they are whole days apart.
    assert s == Date(s) + TimeOfDay(firstDoseTime);
    assert firstDoseTime == Date(firstDoseTime) + TimeOfDay(firstDoseTime);
    DayDifference(Date(s), Date(firstDoseTime));
    NextDoseUnique(firstDoseTime, 1440, now, s);
  }

  lemma DayDifference(a: Instant, b: Instant)
    requires a % SecondsPerDay == 0 && b % SecondsPerDay == 0
    ensures (a - b) % SecondsPerDay == 0
  {
    var i, j := a / SecondsPerDay, b / SecondsPerDay;
    assert a - b == (i - j) * SecondsPerDay;
  }
}
