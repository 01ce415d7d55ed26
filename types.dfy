/**
 * The entity records of the hospital site (types.ts), plus the derived
 * shapes the store's operations take: `Omit<E, 'id'>` becomes a draft
 * datatype without the id, `Partial<E>` a patch whose fields are optional.
 */
module Types {
  import opened Wrappers

  /** `Appointment['status']`: exactly one of three values. */
  datatype Status = Pending | Confirmed | Cancelled

  datatype Doctor = Doctor(
    id: string,
    name: string,
    qualification: string,
    departmentId: string,
    photo: string,
    availableDays: seq<string>,
    timeSlots: seq<string>)

  datatype Department = Department(id: string, name: string, description: string, icon: string)

  datatype Service = Service(id: string, title: string, description: string)

  datatype Appointment = Appointment(
    id: string,
    patientName: string,
    patientEmail: string,
    patientPhone: string,
    doctorId: string,
    date: string,
    timeSlot: string,
    status: Status)

  datatype Notice = Notice(id: string, title: string, content: string, date: string, isImportant: bool)

  /** The singleton configuration; the only record without an id. */
  datatype HospitalConfig = HospitalConfig(name: string, logo: string, address: string, phone: string, email: string)

  // ---------------------------------------------------------------------------
  // `Omit<E, 'id'>`: what an add operation receives.

  datatype DoctorDraft = DoctorDraft(
    name: string,
    qualification: string,
    departmentId: string,
    photo: string,
    availableDays: seq<string>,
    timeSlots: seq<string>)
  {
    /** `{ ...doc, id }` */
    function WithId(id: string): Doctor {
      Doctor(id, name, qualification, departmentId, photo, availableDays, timeSlots)
    }
  }

  datatype DepartmentDraft = DepartmentDraft(name: string, description: string, icon: string) {
    function WithId(id: string): Department {
      Department(id, name, description, icon)
    }
  }

  datatype ServiceDraft = ServiceDraft(title: string, description: string) {
    function WithId(id: string): Service {
      Service(id, title, description)
    }
  }

  datatype NoticeDraft = NoticeDraft(title: string, content: string, date: string, isImportant: bool) {
    function WithId(id: string): Notice {
      Notice(id, title, content, date, isImportant)
    }
  }

  /** `Omit<Appointment, 'id' | 'status'>`: the booking form's record. */
  datatype AppointmentRequest = AppointmentRequest(
    patientName: string,
    patientEmail: string,
    patientPhone: string,
    doctorId: string,
    date: string,
    timeSlot: string)
  {
    /** `{ ...apt, id, status }` */
    function WithIdAndStatus(id: string, status: Status): Appointment {
      Appointment(id, patientName, patientEmail, patientPhone, doctorId, date, timeSlot, status)
    }
  }

  // ---------------------------------------------------------------------------
  // `Partial<E>`: a field that is `None` is absent from the patch.

  datatype DoctorPatch = DoctorPatch(
    id: Option<string>,
    name: Option<string>,
    qualification: Option<string>,
    departmentId: Option<string>,
    photo: Option<string>,
    availableDays: Option<seq<string>>,
    timeSlots: Option<seq<string>>)

  datatype AppointmentPatch = AppointmentPatch(
    id: Option<string>,
    patientName: Option<string>,
    patientEmail: Option<string>,
    patientPhone: Option<string>,
    doctorId: Option<string>,
    date: Option<string>,
    timeSlot: Option<string>,
    status: Option<Status>)

  datatype ConfigPatch = ConfigPatch(
    name: Option<string>,
    logo: Option<string>,
    address: Option<string>,
    phone: Option<string>,
    email: Option<string>)

  const EmptyAppointmentPatch := AppointmentPatch(None, None, None, None, None, None, None, None)

  /** `{}` with every field of `a` copied in: what `setEditAptData(apt)` stores. */
  function FullPatch(a: Appointment): AppointmentPatch {
    AppointmentPatch(Some(a.id), Some(a.patientName), Some(a.patientEmail), Some(a.patientPhone),
                     Some(a.doctorId), Some(a.date), Some(a.timeSlot), Some(a.status))
  }

  // ---------------------------------------------------------------------------
  // Id tests, as named two-argument predicates so that they can be handed to
  // the generic filter and find of module Seqs.

  predicate DoctorIdIs(d: Doctor, id: string) { d.id == id }
  predicate DoctorIdDiffers(d: Doctor, id: string) { d.id != id }
  predicate DepartmentIdIs(d: Department, id: string) { d.id == id }
  predicate DepartmentIdDiffers(d: Department, id: string) { d.id != id }
  predicate ServiceIdDiffers(s: Service, id: string) { s.id != id }
  predicate NoticeIdDiffers(n: Notice, id: string) { n.id != id }
}
