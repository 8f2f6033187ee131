// The value records the scheduler and the history screen read: administered
// doses, combined timeline events, food entries and medical appointments.
// Only the fields the modelled operations use are kept.

module Records {
  import opened Time
  import opened Units

  /** One administered dose (`MedicationHistory`). */
  datatype MedicationHistory = MedicationHistory(
    id: int,
    medicationId: int,
    medicationName: string,
    dose: string,
    administeredTime: Instant,
    userType: string,
    notes: string)

  /** One line of the combined timeline (`MedicationEvent`). */
  datatype MedicationEvent = MedicationEvent(
    id: int,
    medicationId: int,
    medicationName: string,
    dose: string,
    eventTime: Instant,
    isHistory: bool,
    sourceId: int,
    isConfirmed: bool)

  /** A food entry (`FoodEntry`); the floating-point amount and the optional
      start/end times are not part of the model. */
  datatype FoodEntry = FoodEntry(
    id: int,
    foodType: string,
    unit: Unit,
    time: Instant,
    userType: string)

  /** A medical appointment. `isConfirmed` is the flag the history screen filters on. */
  datatype MedicalAppointment = MedicalAppointment(
    id: int,
    title: string,
    appointmentDate: Instant,
    userType: string,
    isConfirmed: bool)

  // Keys for the "most recent first" orderings: `OrderByDescending(x => time)` is
  // the stable ascending sort on the negated time.

  function EventKey(): MedicationEvent -> int { (e: MedicationEvent) => -e.eventTime }
  function HistoryKey(): MedicationHistory -> int { (h: MedicationHistory) => -h.administeredTime }
  function FoodKey(): FoodEntry -> int { (f: FoodEntry) => -f.time }
  function AppointmentKey(): MedicalAppointment -> int { (a: MedicalAppointment) => -a.appointmentDate }
}
