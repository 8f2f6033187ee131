// A medication and its dosing frequency (hours + minutes), with the label the
// application shows for it.

module Medications {
  import opened Time

  datatype Medication = Medication(
    id: int,
    name: string,
    dose: string,
    frequencyHours: int,
    frequencyMinutes: int,
    firstDoseTime: Instant,
    userType: string)

  /** `new Medication()`: every field at its default. */
  function NewMedication(): (m: Medication)
    ensures m.id == 0 && m.name == "" && m.dose == "" && m.userType == ""
    ensures m.frequencyHours == 0 && m.frequencyMinutes == 0
    ensures m.firstDoseTime == MinInstant
  {
    Medication(0, "", "", 0, 0, MinInstant, "")
  }

  /** `TotalFrequencyInMinutes`. Nothing stops the fields from being negative or
      zero, so neither is this. */
  function TotalFrequencyInMinutes(m: Medication): int {
    m.frequencyHours * 60 + m.frequencyMinutes
  }

  /** The frequency the add-medication form accepts: whole hours, minutes in [0, 59],
      not both zero. */
  predicate WellFormedFrequency(hours: int, minutes: int) {
    hours >= 0 && 0 <= minutes <= 59 && !(hours == 0 && minutes == 0)
  }

  /** A well-formed frequency is a positive interval, and hours and minutes can be
      read back from the total: the normalisation loses nothing. */
  lemma FrequencyNormalisation(m: Medication)
    requires WellFormedFrequency(m.frequencyHours, m.frequencyMinutes)
    ensures TotalFrequencyInMinutes(m) > 0
    ensures TotalFrequencyInMinutes(m) / 60 == m.frequencyHours
    ensures TotalFrequencyInMinutes(m) % 60 == m.frequencyMinutes
  {
    var t := TotalFrequencyInMinutes(m);
    assert t == m.frequencyHours * 60 + m.frequencyMinutes;
  }

  lemma FrequencyExamples()
    ensures TotalFrequencyInMinutes(NewMedication().(frequencyHours := 6, frequencyMinutes := 0)) == 360
    ensures TotalFrequencyInMinutes(NewMedication().(frequencyHours := 2, frequencyMinutes := 30)) == 150
    ensures TotalFrequencyInMinutes(NewMedication().(frequencyHours := 0, frequencyMinutes := 45)) == 45
    ensures TotalFrequencyInMinutes(NewMedication().(frequencyHours := 1, frequencyMinutes := 45)) == 105
    ensures TotalFrequencyInMinutes(NewMedication().(frequencyHours := 24, frequencyMinutes := 0)) == 1440
  {
  }

  // ---------------------------------------------------------------------------
  // Decimal formatting of `int`, as C# string interpolation writes it.

  function DigitChar(d: int): (c: char)
    requires 0 <= d < 10
    ensures '0' <= c <= '9' && c as int - '0' as int == d
  {
    (d + '0' as int) as char
  }

  predicate IsDigits(s: string) {
    forall i :: 0 <= i < |s| ==> '0' <= s[i] <= '9'
  }

  function NatToString(n: nat): (s: string)
    ensures |s| >= 1 && IsDigits(s)
  {
    if n < 10 then [DigitChar(n)] else NatToString(n / 10) + [DigitChar(n % 10)]
  }

  /** The number a string of decimal digits denotes. */
  function DigitsValue(s: string): nat
    requires IsDigits(s)
  {
    if s == [] then 0
    else DigitsValue(s[..|s| - 1]) * 10 + (s[|s| - 1] as int - '0' as int)
  }

  /** Formatting then reading back gives the number: no two numbers share a text. */
  lemma {:induction false} NatToStringRoundTrip(n: nat)
    ensures DigitsValue(NatToString(n)) == n
  {
    var s := NatToString(n);
    if n >= 10 {
      NatToStringRoundTrip(n / 10);
      assert s[..|s| - 1] == NatToString(n / 10);
    }
  }

  /** C#'s `int.ToString()`: a minus sign before the digits of a negative number. */
  function IntToString(i: int): string {
    if i < 0 then "-" + NatToString(-i) else NatToString(i)
  }

  /** The `cada …` part of `DisplayText`. */
  function FrequencyLabel(hours: int, minutes: int): string {
    if hours > 0 && minutes > 0 then IntToString(hours) + "h " + IntToString(minutes) + "min"
    else if hours > 0 then IntToString(hours) + "h"
    else IntToString(minutes) + "min"
  }

  /** `DisplayText`: "{Name} ({Dose}) cada {label}". */
  function DisplayText(m: Medication): string {
    m.name + " (" + m.dose + ") cada " + FrequencyLabel(m.frequencyHours, m.frequencyMinutes)
  }

  /** The label names the hours exactly when there are some, and ends in "min"
      exactly when there are minutes to show or no hours at all. */
  lemma FrequencyLabelShape(hours: int, minutes: int)
    ensures var l := FrequencyLabel(hours, minutes);
      |l| >= 2 &&
      (l[|l| - 1] == 'h' <==> hours > 0 && minutes <= 0) &&
      (hours > 0 ==> l[..|IntToString(hours)| + 1] == IntToString(hours) + "h")
  {
    var l := FrequencyLabel(hours, minutes);
    if hours > 0 {
      var h := IntToString(hours);
      assert l == h + "h" + l[|h| + 1..];
      assert l[..|h| + 1] == h + "h";
    }
  }

  /** The leading run of decimal digits of a string. */
  function TakeDigits(s: string): (r: string)
    ensures IsDigits(r) && |r| <= |s|
  {
    if s == [] || !('0' <= s[0] <= '9') then [] else [s[0]] + TakeDigits(s[1..])
  }

  lemma {:induction false} TakeDigitsOf(d: string, rest: string)
    requires IsDigits(d) && rest != [] && !('0' <= rest[0] <= '9')
    ensures TakeDigits(d + rest) == d
    decreases |d|
  {
    if d == [] {
      assert d + rest == rest;
    } else {
      assert (d + rest)[1..] == d[1..] + rest;
      TakeDigitsOf(d[1..], rest);
    }
  }

  /** A well-formed label starts with the digits of the hours (or of the minutes when
      there are no hours), followed by 'h' (or by 'm'). */
  lemma LabelHead(hours: int, minutes: int)
    requires WellFormedFrequency(hours, minutes)
    ensures var l := FrequencyLabel(hours, minutes);
      var t := TakeDigits(l);
      t == NatToString(if hours > 0 then hours else minutes) &&
      |t| < |l| && l[|t|] == (if hours > 0 then 'h' else 'm')
  {
    var l := FrequencyLabel(hours, minutes);
    if hours > 0 && minutes > 0 {
      var d := NatToString(hours);
      assert l == d + ("h " + NatToString(minutes) + "min");
      TakeDigitsOf(d, "h " + NatToString(minutes) + "min");
    } else if hours > 0 {
      TakeDigitsOf(NatToString(hours), "h");
    } else {
      TakeDigitsOf(NatToString(minutes), "min");
    }
  }

  /** Two well-formed frequencies with the same label are the same frequency. */
  lemma FrequencyLabelInjective(h1: int, m1: int, h2: int, m2: int)
    requires WellFormedFrequency(h1, m1) && WellFormedFrequency(h2, m2)
    requires FrequencyLabel(h1, m1) == FrequencyLabel(h2, m2)
    ensures h1 == h2 && m1 == m2
  {
    var l := FrequencyLabel(h1, m1);
    LabelHead(h1, m1);
    LabelHead(h2, m2);
    var n1 := if h1 > 0 then h1 else m1;
    var n2 := if h2 > 0 then h2 else m2;
    NatToStringRoundTrip(n1);
    NatToStringRoundTrip(n2);
    if h1 > 0 && m1 > 0 && m2 > 0 {
      var d := NatToString(h1);
      var s1, s2 := NatToString(m1), NatToString(m2);
      assert l == d + "h " + s1 + "min" == d + "h " + s2 + "min";
      assert s1 == l[|d| + 2..|l| - 3] == s2;
      NatToStringRoundTrip(m1);
      NatToStringRoundTrip(m2);
    }
  }

  lemma FrequencyLabelExamples()
    ensures FrequencyLabel(4, 30) == "4h 30min"
    ensures FrequencyLabel(12, 0) == "12h"
    ensures FrequencyLabel(0, 30) == "30min"
  {
    assert NatToString(12) == "12";
    assert NatToString(30) == "30";
  }

  /** `DisplayText` of a frequency with hours and minutes. */
  lemma DisplayTextWithHoursAndMinutes()
    ensures DisplayText(Medication(0, "Paracetamol", "500mg", 4, 30, 0, "")) == "Paracetamol (500mg) cada 4h 30min"
  {
    var l := FrequencyLabel(4, 30);
    FrequencyLabelExamples();
    assert "Paracetamol" + " (" + "500mg" + ") cada " + l == "Paracetamol (500mg) cada 4h 30min";
  }

  /** `DisplayText` of a whole number of hours leaves the minutes out. */
  lemma DisplayTextWithWholeHours()
    ensures DisplayText(Medication(0, "Aspirina", "100mg", 12, 0, 0, "")) == "Aspirina (100mg) cada 12h"
  {
    var l := FrequencyLabel(12, 0);
    FrequencyLabelExamples();
    assert "Aspirina" + " (" + "100mg" + ") cada " + l == "Aspirina (100mg) cada 12h";
  }

  /** `DisplayText` of less than an hour shows only the minutes. */
  lemma DisplayTextWithMinutesOnly()
    ensures DisplayText(Medication(0, "Gotas", "5ml", 0, 30, 0, "")) == "Gotas (5ml) cada 30min"
  {
    var l := FrequencyLabel(0, 30);
    FrequencyLabelExamples();
    assert "Gotas" + " (" + "5ml" + ") cada " + l == "Gotas (5ml) cada 30min";
  }
}
