/** The booking form (pages/Appointment.tsx): the form state, the slot picker and the submission. */
module AppointmentPage {
  import opened Wrappers
  import opened Types
  import opened Seqs
  import opened Store

  /**
   * The form as the page opens: every field empty except the doctor, which
   * is the one the visitor arrived with from the directory, if any
   * (`location.state?.doctorId || ''`).
   */
  function InitialForm(navDoctorId: Option<string>): (f: AppointmentRequest)
    ensures f.patientName == "" && f.patientEmail == "" && f.patientPhone == ""
    ensures f.date == "" && f.timeSlot == ""
    ensures navDoctorId.None? ==> f.doctorId == ""
    ensures navDoctorId.Some? ==> f.doctorId == navDoctorId.value
  {
    AppointmentRequest("", "", "", navDoctorId.GetOr(""), "", "")
  }

  /** `doctors.find(d => d.id === formData.doctorId)` */
  function SelectedDoctor(doctors: seq<Doctor>, doctorId: string): (d: Option<Doctor>)
    ensures d.None? <==> forall i :: 0 <= i < |doctors| ==> doctors[i].id != doctorId
    ensures d.Some? ==> exists i :: 0 <= i < |doctors| && d.value == doctors[i] && doctors[i].id == doctorId &&
                                    forall j :: 0 <= j < i ==> doctors[j].id != doctorId
  {
    Find(doctors, DoctorIdIs, doctorId)
  }

  /**
   * The slot panel: hidden (None) when no doctor is selected, otherwise the
   * selected doctor's time slots, an empty list showing "No slots defined".
   */
  function SlotChoices(doctors: seq<Doctor>, doctorId: string): (slots: Option<seq<string>>)
    ensures slots.None? <==> forall i :: 0 <= i < |doctors| ==> doctors[i].id != doctorId
    ensures forall i :: 0 <= i < |doctors| && doctors[i].id == doctorId &&
                        (forall j :: 0 <= j < i ==> doctors[j].id != doctorId) ==>
                        slots == Some(doctors[i].timeSlots)
  {
    match FirstIndex(doctors, DoctorIdIs, doctorId)
    case None => None
    case Some(i) => Some(doctors[i].timeSlots)
  }

  /** The slot button drawn as chosen: `formData.timeSlot === slot`. */
  predicate IsChosen(f: AppointmentRequest, slot: string) {
    f.timeSlot == slot
  }

  /**
   * The fields the form marks `required`: the browser submits only when the
   * patient's name, phone and email and the date are filled in, and the
   * specialist selector shows a doctor rather than its placeholder option
   * (value ""). A `doctorId` that no option carries leaves the selector on
   * its first option, the placeholder, so it blocks the submission too.
   * The time slot is a row of buttons, not an input, so it is not required.
   */
  predicate RequiredFilled(f: AppointmentRequest, doctors: seq<Doctor>)
    ensures RequiredFilled(f, doctors) ==> f.patientName != "" && f.patientPhone != "" && f.patientEmail != "" && f.date != ""
    ensures RequiredFilled(f, doctors) ==> f.doctorId != "" && SelectedDoctor(doctors, f.doctorId).Some?
    ensures f.patientName != "" && f.patientPhone != "" && f.patientEmail != "" && f.date != "" &&
            f.doctorId != "" && (exists i :: 0 <= i < |doctors| && doctors[i].id == f.doctorId) ==>
            RequiredFilled(f, doctors)
  {
    f.patientName != "" && f.patientPhone != "" && f.patientEmail != "" && f.date != "" &&
    f.doctorId != "" && SelectedDoctor(doctors, f.doctorId).Some?
  }

  /**
   * Arriving from a doctor's card preselects that doctor: the slot panel
   * opens on the slots of the first doctor with that id.
   */
  lemma {:induction false} ArrivalShowsDoctorSlots(doctors: seq<Doctor>, i: nat)
    requires i < |doctors|
    requires forall j :: 0 <= j < i ==> doctors[j].id != doctors[i].id
    ensures SlotChoices(doctors, InitialForm(Some(doctors[i].id)).doctorId) == Some(doctors[i].timeSlots)
    ensures SelectedDoctor(doctors, InitialForm(Some(doctors[i].id)).doctorId) == Some(doctors[i])
  {
    var id := InitialForm(Some(doctors[i].id)).doctorId;
    assert id == doctors[i].id;
    var d := SelectedDoctor(doctors, id);
    assert d.Some?;
    var k :| 0 <= k < |doctors| && d.value == doctors[k] && doctors[k].id == id &&
             forall j :: 0 <= j < k ==> doctors[j].id != id;
    assert k == i;
  }

  /** The slot panel agrees with the selected doctor: it is shown exactly when one is selected, with that doctor's slots. */
  lemma SlotChoicesOfSelected(doctors: seq<Doctor>, doctorId: string)
    ensures SlotChoices(doctors, doctorId).Some? <==> SelectedDoctor(doctors, doctorId).Some?
    ensures SelectedDoctor(doctors, doctorId).Some? ==>
              SlotChoices(doctors, doctorId) == Some(SelectedDoctor(doctors, doctorId).value.timeSlots)
  {
    var d := SelectedDoctor(doctors, doctorId);
    if d.Some? {
      var k :| 0 <= k < |doctors| && d.value == doctors[k] && doctors[k].id == doctorId &&
               forall j :: 0 <= j < k ==> doctors[j].id != doctorId;
    }
  }

  /**
   * Changing the doctor keeps the chosen slot: after switching to the first
   * doctor with a given id, the panel offers that doctor's slots while the
   * form still carries the old slot, offered or not.
   */
  lemma SlotSurvivesDoctorChange(doctors: seq<Doctor>, f: AppointmentRequest, k: nat)
    requires k < |doctors|
    requires forall j :: 0 <= j < k ==> doctors[j].id != doctors[k].id
    requires f.timeSlot !in doctors[k].timeSlots
    ensures var g := f.(doctorId := doctors[k].id);
            SlotChoices(doctors, g.doctorId) == Some(doctors[k].timeSlots) &&
            g.timeSlot == f.timeSlot && g.timeSlot !in doctors[k].timeSlots
  {
  }

  /** The booking page: the form fields and whether the request has been sent. */
  class BookingPage {
    var formData: AppointmentRequest
    var submitted: bool

    constructor(navDoctorId: Option<string>)
      ensures formData == InitialForm(navDoctorId) && !submitted
    {
      formData := InitialForm(navDoctorId);
      submitted := false;
    }

    method SetPatientName(value: string)
      modifies this
      ensures formData == old(formData).(patientName := value) && submitted == old(submitted)
    {
      formData := formData.(patientName := value);
    }

    method SetPatientPhone(value: string)
      modifies this
      ensures formData == old(formData).(patientPhone := value) && submitted == old(submitted)
    {
      formData := formData.(patientPhone := value);
    }

    method SetPatientEmail(value: string)
      modifies this
      ensures formData == old(formData).(patientEmail := value) && submitted == old(submitted)
    {
      formData := formData.(patientEmail := value);
    }

    /** The specialist selector: the chosen slot is kept as it was. */
    method SetDoctor(value: string)
      modifies this
      ensures formData == old(formData).(doctorId := value) && submitted == old(submitted)
      ensures formData.timeSlot == old(formData).timeSlot
    {
      formData := formData.(doctorId := value);
    }

    method SetDate(value: string)
      modifies this
      ensures formData == old(formData).(date := value) && submitted == old(submitted)
    {
      formData := formData.(date := value);
    }

    /** A slot button: that slot becomes the only one drawn as chosen. */
    method ChooseSlot(slot: string)
      modifies this
      ensures formData == old(formData).(timeSlot := slot) && submitted == old(submitted)
      ensures forall other :: IsChosen(formData, other) <==> other == slot
    {
      formData := formData.(timeSlot := slot);
    }

    /** `handleSubmit`: sends the form as it stands and switches to the confirmation. */
    method HandleSubmit(store: HospitalStore, refresh: RefreshOutcome)
      modifies this, store
      ensures store.State() == Refreshed(old(store.State()).(appointments := BookLocal(old(store.appointments), old(formData))), refresh)
      ensures store.requests == old(store.requests) + [InsertAppointment(old(formData), Pending)]
      ensures submitted && formData == old(formData)
    {
      store.BookAppointment(formData, refresh);
      submitted := true;
    }

    /**
     * Pressing "Book Now": the browser runs `handleSubmit` only when every
     * required field is filled in, the selector on one of the store's
     * doctors, and otherwise leaves everything as it was.
     */
    method Submit(store: HospitalStore, refresh: RefreshOutcome)
      modifies this, store
      ensures RequiredFilled(old(formData), old(store.doctors)) ==>
        store.State() == Refreshed(old(store.State()).(appointments := BookLocal(old(store.appointments), old(formData))), refresh) &&
        store.requests == old(store.requests) + [InsertAppointment(old(formData), Pending)] &&
        submitted
      ensures !RequiredFilled(old(formData), old(store.doctors)) ==>
        store.State() == old(store.State()) && store.requests == old(store.requests) && submitted == old(submitted)
      ensures formData == old(formData)
    {
      if RequiredFilled(formData, store.doctors) {
        HandleSubmit(store, refresh);
      }
    }
  }
}
