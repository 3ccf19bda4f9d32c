/**
 * src/pages/BookAppointment.tsx: the booking form's state, the department to
 * doctor cascade, the six fixed time slots, and the required-field check that
 * both `handleSubmit` and the submit button's `disabled` condition apply.
 */
module BookAppointment {
  import opened Wrappers
  import opened Catalog

  /** A calendar day; the calendar's own date arithmetic is not modelled. */
  type Day = nat

  const TimeSlots: seq<string> := ["09:00 AM", "10:00 AM", "11:00 AM", "02:00 PM", "03:00 PM", "04:00 PM"]

  const RequiredFieldsMessage: string := "Please fill in all required fields"
  const DashboardRoute: string := "/dashboard"

  /** A snapshot of the form's seven state variables. */
  datatype Booking = Booking(
    date: Option<Day>,
    hospital: string,
    department: string,
    doctor: string,
    time: string,
    reason: string,
    notes: string)

  /** What submitting does: an error toast and no navigation, or a booking and a navigation. */
  datatype SubmitResult = Rejected(message: string) | Booked(navigateTo: string)

  /** The validation in `handleSubmit`: hospital, department, doctor, date, time and reason must all be set. */
  predicate MissingRequired(b: Booking) {
    b.hospital == "" || b.department == "" || b.doctor == "" || b.date.None? || b.time == "" || b.reason == ""
  }

  /** `handleSubmit`: reject when a required field is missing, otherwise book and go to the dashboard. */
  function Submit(b: Booking): (r: SubmitResult)
    ensures r.Rejected? <==> MissingRequired(b)
    ensures r.Rejected? ==> r.message == RequiredFieldsMessage
    ensures r.Booked? ==> r.navigateTo == DashboardRoute
  {
    if MissingRequired(b) then Rejected(RequiredFieldsMessage) else Booked(DashboardRoute)
  }

  /** The submit button's `disabled` expression, as written on the button. */
  predicate SubmitDisabled(b: Booking) {
    b.hospital == "" || b.department == "" || b.doctor == "" || b.date.None? || b.time == "" || b.reason == ""
  }

  /** The button is disabled exactly when submitting would be rejected. */
  lemma DisabledIffRejected(b: Booking)
    ensures SubmitDisabled(b) <==> Submit(b).Rejected?
  {
  }

  /** The notes never decide the outcome. */
  lemma NotesNeverRequired(b: Booking, notes: string)
    ensures Submit(b.(notes := notes)) == Submit(b)
  {
  }

  /** Clearing any one of the six required fields of a bookable form makes it rejected. */
  lemma EachRequiredFieldMatters(b: Booking)
    requires Submit(b).Booked?
    ensures Submit(b.(hospital := "")).Rejected?
    ensures Submit(b.(department := "")).Rejected?
    ensures Submit(b.(doctor := "")).Rejected?
    ensures Submit(b.(date := None)).Rejected?
    ensures Submit(b.(time := "")).Rejected?
    ensures Submit(b.(reason := "")).Rejected?
  {
  }

  /** The form component's state, updated in place by its handlers. */
  class BookingForm {
    var date: Option<Day>
    var hospital: string
    var department: string
    var doctor: string
    var time: string
    var reason: string
    var notes: string

    function Fields(): Booking
      reads this
    {
      Booking(date, hospital, department, doctor, time, reason, notes)
    }

    /**
     * The selected time is empty or one of the six slots, and the selected
     * doctor is empty or one of the selected department's doctors.
     */
    ghost predicate Valid()
      reads this
    {
      (time == "" || time in TimeSlots) &&
      (doctor == "" || doctor in DoctorIds(AvailableDoctors(department)))
    }

    /** The initial state: today's date, every other field empty. */
    constructor (today: Day)
      ensures Valid()
      ensures Fields() == Booking(Some(today), "", "", "", "", "", "")
    {
      date := Some(today);
      hospital, department, doctor := "", "", "";
      time, reason, notes := "", "", "";
    }

    /** `availableDoctors` for the current department. */
    function Doctors(): seq<Doctor>
      reads this
    {
      AvailableDoctors(department)
    }

    method SelectHospital(h: string)
      requires Valid()
      modifies this
      ensures Valid()
      ensures Fields() == old(Fields()).(hospital := h)
    {
      hospital := h;
    }

    /** `handleDeptChange`: sets the department and resets the doctor; nothing else changes. */
    method ChangeDepartment(value: string)
      requires Valid()
      modifies this
      ensures Valid()
      ensures Fields() == old(Fields()).(department := value, doctor := "")
    {
      department := value;
      doctor := "";
    }

    /** The doctor select offers only the current department's doctors. */
    method SelectDoctor(id: string)
      requires Valid()
      requires id in DoctorIds(Doctors())
      modifies this
      ensures Valid()
      ensures Fields() == old(Fields()).(doctor := id)
    {
      doctor := id;
    }

    /** The calendar's `onSelect`; in single mode it can also deselect. */
    method PickDate(d: Option<Day>)
      requires Valid()
      modifies this
      ensures Valid()
      ensures Fields() == old(Fields()).(date := d)
    {
      date := d;
    }

    /** A time-slot button: only the six slots are rendered. */
    method SelectTime(slot: string)
      requires Valid()
      requires slot in TimeSlots
      modifies this
      ensures Valid()
      ensures Fields() == old(Fields()).(time := slot)
    {
      time := slot;
    }

    method SelectReason(r: string)
      requires Valid()
      modifies this
      ensures Valid()
      ensures Fields() == old(Fields()).(reason := r)
    {
      reason := r;
    }

    method EditNotes(n: string)
      requires Valid()
      modifies this
      ensures Valid()
      ensures Fields() == old(Fields()).(notes := n)
    {
      notes := n;
    }

    /** `handleSubmit`: validates without changing the form. */
    method HandleSubmit() returns (r: SubmitResult)
      ensures r == Submit(Fields())
      ensures r.Rejected? <==> MissingRequired(Fields())
    {
      r := Submit(Fields());
    }
  }
}
