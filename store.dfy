/**
 * The hospital store (store/HospitalContext.tsx): the in-memory cache of
 * the five entity collections, the singleton configuration and the
 * `loading` / `dbConnected` flags, and the operations that change them.
 *
 * Every mutation applies an optimistic change to its local collection,
 * then sends one write to the remote record store, then refreshes. The
 * remote store is not modelled: the writes sent are recorded in the ghost
 * log `requests`, and what a refresh reads back is a parameter.
 */
module Store {
  import opened Wrappers
  import opened Types
  import opened Seqs

  const DefaultConfig := HospitalConfig(
    "Bharat Seva Hospital",
    "https://i.ibb.co/68Xk9wL/medical-logo.png",
    "123, Health Avenue, New Delhi, India",
    "+91 98765 43210",
    "contact@bharatsevahospital.in")

  /** The placeholder id of an optimistically added entry. */
  const TempId := "temp"

  // ---------------------------------------------------------------------------
  // What a refresh reads back: one result per table, each with optional
  // data (`null` when the query produced none) and an error flag.

  datatype Fetch<T> = Fetch(data: Option<seq<T>>, error: bool)

  datatype Snapshot = Snapshot(
    doctors: Fetch<Doctor>,
    departments: Fetch<Department>,
    services: Fetch<Service>,
    appointments: Fetch<Appointment>,
    notices: Fetch<Notice>,
    config: Fetch<HospitalConfig>)

  /** Either the six queries came back, or awaiting them threw. */
  datatype RefreshOutcome = Threw | Fetched(snapshot: Snapshot)

  /** The tables of the remote store. */
  datatype Table = Doctors | Departments | Services | Appointments | Notices | HospitalConfigTable

  /** A write sent to the remote store. */
  datatype Request =
    | InsertDoctor(doctor: DoctorDraft)
    | PatchDoctor(id: string, doctorPatch: DoctorPatch)
    | InsertDepartment(department: DepartmentDraft)
    | InsertService(service: ServiceDraft)
    | InsertNotice(notice: NoticeDraft)
    | InsertAppointment(appointment: AppointmentRequest, status: Status)
    | PatchAppointment(id: string, appointmentPatch: AppointmentPatch)
    | InsertConfig(configPatch: ConfigPatch)
    | UpdateConfigRow(id: string, configPatch: ConfigPatch)
    | Delete(table: Table, id: string)

  /** The provider's state, as one value. */
  datatype StoreState = StoreState(
    doctors: seq<Doctor>,
    departments: seq<Department>,
    services: seq<Service>,
    appointments: seq<Appointment>,
    notices: seq<Notice>,
    config: HospitalConfig,
    loading: bool,
    dbConnected: bool)

  function InitialState(): StoreState {
    StoreState([], [], [], [], [], DefaultConfig, true, false)
  }

  // ---------------------------------------------------------------------------
  // Applying a refresh.

  /** `[rDocs, ..., rCfg].some(r => r.error)` */
  predicate SomeError(snap: Snapshot) {
    true in [snap.doctors.error, snap.departments.error, snap.services.error,
             snap.appointments.error, snap.notices.error, snap.config.error]
  }

  /** `if (r.data) set(r.data)`: an array, even an empty one, replaces the collection. */
  function Replaced<T>(f: Fetch<T>, current: seq<T>): (r: seq<T>)
    ensures f.data.Some? ==> r == f.data.value
    ensures f.data.None? ==> r == current
  {
    if f.data.Some? then f.data.value else current
  }

  /** `if (rCfg.data && rCfg.data.length > 0) setConfig(rCfg.data[0])` */
  function ReplacedConfig(f: Fetch<HospitalConfig>, current: HospitalConfig): (r: HospitalConfig)
    ensures r != current ==> f.data.Some? && |f.data.value| > 0 && r == f.data.value[0]
    ensures (f.data.None? || f.data.value == []) ==> r == current
    ensures f.data.Some? && |f.data.value| > 0 ==> r == f.data.value[0]
  {
    if f.data.Some? && |f.data.value| > 0 then f.data.value[0] else current
  }

  /** The state after `refreshData` with the given outcome. */
  function Refreshed(s: StoreState, o: RefreshOutcome): (r: StoreState)
    ensures !r.loading
    ensures o.Threw? ==> r == s.(loading := false)
    ensures o.Fetched? ==> (r.dbConnected <==>
      !(o.snapshot.doctors.error || o.snapshot.departments.error || o.snapshot.services.error ||
        o.snapshot.appointments.error || o.snapshot.notices.error || o.snapshot.config.error))
    ensures o.Fetched? && o.snapshot.doctors.data.None? ==> r.doctors == s.doctors
    ensures o.Fetched? && o.snapshot.departments.data.None? ==> r.departments == s.departments
    ensures o.Fetched? && o.snapshot.services.data.None? ==> r.services == s.services
    ensures o.Fetched? && o.snapshot.appointments.data.None? ==> r.appointments == s.appointments
    ensures o.Fetched? && o.snapshot.notices.data.None? ==> r.notices == s.notices
    ensures o.Fetched? && o.snapshot.doctors.data.Some? ==> r.doctors == o.snapshot.doctors.data.value
    ensures o.Fetched? && o.snapshot.departments.data.Some? ==> r.departments == o.snapshot.departments.data.value
    ensures o.Fetched? && o.snapshot.services.data.Some? ==> r.services == o.snapshot.services.data.value
    ensures o.Fetched? && o.snapshot.appointments.data.Some? ==> r.appointments == o.snapshot.appointments.data.value
    ensures o.Fetched? && o.snapshot.notices.data.Some? ==> r.notices == o.snapshot.notices.data.value
    ensures o.Fetched? ==> r.config == ReplacedConfig(o.snapshot.config, s.config)
  {
    match o
    case Threw => s.(loading := false)
    case Fetched(snap) =>
      StoreState(
        Replaced(snap.doctors, s.doctors),
        Replaced(snap.departments, s.departments),
        Replaced(snap.services, s.services),
        Replaced(snap.appointments, s.appointments),
        Replaced(snap.notices, s.notices),
        ReplacedConfig(snap.config, s.config),
        false,
        !SomeError(snap))
  }

  /** Applying the same outcome twice is applying it once. */
  lemma RefreshIdempotent(s: StoreState, o: RefreshOutcome)
    ensures Refreshed(Refreshed(s, o), o) == Refreshed(s, o)
  {
  }

  /**
   * A snapshot in which every table returned data, and the config table a
   * row, replaces the whole cache: the result does not depend on what was
   * cached before.
   */
  lemma RefreshCompleteSnapshot(s1: StoreState, s2: StoreState, snap: Snapshot)
    requires snap.doctors.data.Some? && snap.departments.data.Some? && snap.services.data.Some?
    requires snap.appointments.data.Some? && snap.notices.data.Some?
    requires snap.config.data.Some? && |snap.config.data.value| > 0
    ensures Refreshed(s1, Fetched(snap)) == Refreshed(s2, Fetched(snap))
    ensures Refreshed(s1, Fetched(snap)).doctors == snap.doctors.data.value
    ensures Refreshed(s1, Fetched(snap)).config == snap.config.data.value[0]
  {
  }

  // ---------------------------------------------------------------------------
  // Optimistic updaters, one per mutation.

  /** `[...prev, { ...doc, id: 'temp' }]` */
  function AddDoctorLocal(prev: seq<Doctor>, doc: DoctorDraft): (r: seq<Doctor>)
    ensures |r| == |prev| + 1 && r[..|prev|] == prev
    ensures r[|prev|] == doc.WithId(TempId)
  {
    prev + [doc.WithId(TempId)]
  }

  function AddDepartmentLocal(prev: seq<Department>, dept: DepartmentDraft): (r: seq<Department>)
    ensures |r| == |prev| + 1 && r[..|prev|] == prev
    ensures r[|prev|] == dept.WithId(TempId)
  {
    prev + [dept.WithId(TempId)]
  }

  function AddServiceLocal(prev: seq<Service>, service: ServiceDraft): (r: seq<Service>)
    ensures |r| == |prev| + 1 && r[..|prev|] == prev
    ensures r[|prev|] == service.WithId(TempId)
  {
    prev + [service.WithId(TempId)]
  }

  /** `[{ ...notice, id: 'temp' }, ...prev]` */
  function AddNoticeLocal(prev: seq<Notice>, notice: NoticeDraft): (r: seq<Notice>)
    ensures |r| == |prev| + 1 && r[1..] == prev
    ensures r[0] == notice.WithId(TempId)
  {
    [notice.WithId(TempId)] + prev
  }

  /** `[{ ...apt, id: 'temp', status: 'Pending' }, ...prev]` */
  function BookLocal(prev: seq<Appointment>, apt: AppointmentRequest): (r: seq<Appointment>)
    ensures |r| == |prev| + 1 && r[1..] == prev
    ensures r[0].status == Pending && r[0].id == TempId
    ensures r[0] == apt.WithIdAndStatus(TempId, Pending)
  {
    [apt.WithIdAndStatus(TempId, Pending)] + prev
  }

  /** `{ ...d, ...doc }`: every field the patch carries overrides the doctor's. */
  function MergeDoctor(d: Doctor, p: DoctorPatch): (r: Doctor)
    ensures p == DoctorPatch(None, None, None, None, None, None, None) ==> r == d
    ensures p.id.Some? ==> r.id == p.id.value
    ensures p.id.None? ==> r.id == d.id
    ensures p.name.Some? ==> r.name == p.name.value
    ensures p.name.None? ==> r.name == d.name
    ensures p.qualification.Some? ==> r.qualification == p.qualification.value
    ensures p.qualification.None? ==> r.qualification == d.qualification
    ensures p.departmentId.Some? ==> r.departmentId == p.departmentId.value
    ensures p.departmentId.None? ==> r.departmentId == d.departmentId
    ensures p.photo.Some? ==> r.photo == p.photo.value
    ensures p.photo.None? ==> r.photo == d.photo
    ensures p.availableDays.Some? ==> r.availableDays == p.availableDays.value
    ensures p.availableDays.None? ==> r.availableDays == d.availableDays
    ensures p.timeSlots.Some? ==> r.timeSlots == p.timeSlots.value
    ensures p.timeSlots.None? ==> r.timeSlots == d.timeSlots
  {
    Doctor(p.id.GetOr(d.id), p.name.GetOr(d.name), p.qualification.GetOr(d.qualification),
           p.departmentId.GetOr(d.departmentId), p.photo.GetOr(d.photo),
           p.availableDays.GetOr(d.availableDays), p.timeSlots.GetOr(d.timeSlots))
  }

  /** `{ ...a, ...apt }` */
  function MergeAppointment(a: Appointment, p: AppointmentPatch): (r: Appointment)
    ensures p == EmptyAppointmentPatch ==> r == a
    ensures p.id.Some? ==> r.id == p.id.value
    ensures p.id.None? ==> r.id == a.id
    ensures p.patientName.Some? ==> r.patientName == p.patientName.value
    ensures p.patientName.None? ==> r.patientName == a.patientName
    ensures p.patientEmail.Some? ==> r.patientEmail == p.patientEmail.value
    ensures p.patientEmail.None? ==> r.patientEmail == a.patientEmail
    ensures p.patientPhone.Some? ==> r.patientPhone == p.patientPhone.value
    ensures p.patientPhone.None? ==> r.patientPhone == a.patientPhone
    ensures p.doctorId.Some? ==> r.doctorId == p.doctorId.value
    ensures p.doctorId.None? ==> r.doctorId == a.doctorId
    ensures p.date.Some? ==> r.date == p.date.value
    ensures p.date.None? ==> r.date == a.date
    ensures p.timeSlot.Some? ==> r.timeSlot == p.timeSlot.value
    ensures p.timeSlot.None? ==> r.timeSlot == a.timeSlot
    ensures p.status.Some? ==> r.status == p.status.value
    ensures p.status.None? ==> r.status == a.status
  {
    Appointment(p.id.GetOr(a.id), p.patientName.GetOr(a.patientName), p.patientEmail.GetOr(a.patientEmail),
                p.patientPhone.GetOr(a.patientPhone), p.doctorId.GetOr(a.doctorId), p.date.GetOr(a.date),
                p.timeSlot.GetOr(a.timeSlot), p.status.GetOr(a.status))
  }

  /** `{ ...prev, ...newConfig }` */
  function MergeConfig(c: HospitalConfig, p: ConfigPatch): (r: HospitalConfig)
    ensures p == ConfigPatch(None, None, None, None, None) ==> r == c
    ensures p.name.Some? ==> r.name == p.name.value
    ensures p.name.None? ==> r.name == c.name
    ensures p.logo.Some? ==> r.logo == p.logo.value
    ensures p.logo.None? ==> r.logo == c.logo
    ensures p.address.Some? ==> r.address == p.address.value
    ensures p.address.None? ==> r.address == c.address
    ensures p.phone.Some? ==> r.phone == p.phone.value
    ensures p.phone.None? ==> r.phone == c.phone
    ensures p.email.Some? ==> r.email == p.email.value
    ensures p.email.None? ==> r.email == c.email
  {
    HospitalConfig(p.name.GetOr(c.name), p.logo.GetOr(c.logo), p.address.GetOr(c.address),
                   p.phone.GetOr(c.phone), p.email.GetOr(c.email))
  }

  /** A patch that copies a whole appointment turns any entry into that appointment. */
  lemma MergeFullPatch(a: Appointment, b: Appointment)
    ensures MergeAppointment(a, FullPatch(b)) == b
  {
  }

  /** Merging the same patch twice is merging it once. */
  lemma MergeIdempotent(a: Appointment, p: AppointmentPatch)
    ensures MergeAppointment(MergeAppointment(a, p), p) == MergeAppointment(a, p)
  {
  }

  /** `prev.map(d => d.id === id ? { ...d, ...doc } : d)` */
  function UpdateDoctorLocal(prev: seq<Doctor>, id: string, patch: DoctorPatch): (r: seq<Doctor>)
    ensures |r| == |prev|
    ensures forall i :: 0 <= i < |prev| && prev[i].id != id ==> r[i] == prev[i]
    ensures forall i :: 0 <= i < |prev| && prev[i].id == id ==> r[i] == MergeDoctor(prev[i], patch)
    decreases |prev|
  {
    if prev == [] then []
    else [if prev[0].id == id then MergeDoctor(prev[0], patch) else prev[0]]
         + UpdateDoctorLocal(prev[1..], id, patch)
  }

  /** `prev.map(a => a.id === id ? { ...a, ...apt } : a)` */
  function UpdateAppointmentLocal(prev: seq<Appointment>, id: string, patch: AppointmentPatch): (r: seq<Appointment>)
    ensures |r| == |prev|
    ensures forall i :: 0 <= i < |prev| && prev[i].id != id ==> r[i] == prev[i]
    ensures forall i :: 0 <= i < |prev| && prev[i].id == id ==> r[i] == MergeAppointment(prev[i], patch)
    decreases |prev|
  {
    if prev == [] then []
    else [if prev[0].id == id then MergeAppointment(prev[0], patch) else prev[0]]
         + UpdateAppointmentLocal(prev[1..], id, patch)
  }

  /** `prev.map(a => a.id === id ? { ...a, status } : a)` */
  function SetStatusLocal(prev: seq<Appointment>, id: string, status: Status): (r: seq<Appointment>)
    ensures |r| == |prev|
    ensures forall i :: 0 <= i < |prev| && prev[i].id != id ==> r[i] == prev[i]
    ensures forall i :: 0 <= i < |prev| && prev[i].id == id ==> r[i] == prev[i].(status := status)
    decreases |prev|
  {
    if prev == [] then []
    else [if prev[0].id == id then prev[0].(status := status) else prev[0]]
         + SetStatusLocal(prev[1..], id, status)
  }

  /** The patch `{ status }` sent by a status update. */
  function StatusPatch(status: Status): AppointmentPatch {
    EmptyAppointmentPatch.(status := Some(status))
  }

  /** A status update is the general update with the one-field patch `{ status }`. */
  lemma {:induction false} SetStatusIsUpdate(prev: seq<Appointment>, id: string, status: Status)
    ensures SetStatusLocal(prev, id, status) == UpdateAppointmentLocal(prev, id, StatusPatch(status))
  {
    var a := SetStatusLocal(prev, id, status);
    var b := UpdateAppointmentLocal(prev, id, StatusPatch(status));
    assert |a| == |b|;
    forall i | 0 <= i < |a| ensures a[i] == b[i] {
    }
  }

  /**
   * Updating twice with the same patch is updating once, provided the patch
   * does not move the entry to another id.
   */
  lemma {:induction false} UpdateAppointmentTwice(prev: seq<Appointment>, id: string, patch: AppointmentPatch)
    requires patch.id.None? || patch.id == Some(id)
    ensures UpdateAppointmentLocal(UpdateAppointmentLocal(prev, id, patch), id, patch)
         == UpdateAppointmentLocal(prev, id, patch)
  {
    var once := UpdateAppointmentLocal(prev, id, patch);
    var twice := UpdateAppointmentLocal(once, id, patch);
    forall i | 0 <= i < |prev| ensures twice[i] == once[i] {
      if prev[i].id == id {
        MergeIdempotent(prev[i], patch);
      }
    }
  }

  /**
   * Removing the placeholder id after an optimistic add leaves exactly what
   * removing it from the original collection leaves: the added entry is gone.
   */
  lemma AddThenRemoveDoctor(prev: seq<Doctor>, doc: DoctorDraft)
    ensures Filter(AddDoctorLocal(prev, doc), DoctorIdDiffers, TempId) == Filter(prev, DoctorIdDiffers, TempId)
  {
    FilterConcat(prev, [doc.WithId(TempId)], DoctorIdDiffers, TempId);
    assert Filter([doc.WithId(TempId)], DoctorIdDiffers, TempId) == [];
  }

  /** The remote write `updateConfig` sends: update the first existing row, else insert. */
  function ConfigWrite(existing: Option<seq<string>>, patch: ConfigPatch): (r: Request)
    ensures r.UpdateConfigRow? <==> existing.Some? && |existing.value| > 0
    ensures r.UpdateConfigRow? ==> r.id == existing.value[0]
    ensures (r.InsertConfig? || r.UpdateConfigRow?) && r.configPatch == patch
  {
    if existing.Some? && |existing.value| > 0 then UpdateConfigRow(existing.value[0], patch)
    else InsertConfig(patch)
  }

  // ---------------------------------------------------------------------------
  // The provider.

  class HospitalStore {
    var doctors: seq<Doctor>
    var departments: seq<Department>
    var services: seq<Service>
    var appointments: seq<Appointment>
    var notices: seq<Notice>
    var loading: bool
    var dbConnected: bool
    var config: HospitalConfig

    /** The writes sent to the remote store so far, oldest first. */
    ghost var requests: seq<Request>

    function State(): StoreState
      reads this
    {
      StoreState(doctors, departments, services, appointments, notices, config, loading, dbConnected)
    }

    constructor ()
      ensures doctors == [] && departments == [] && services == [] && appointments == [] && notices == []
      ensures loading && !dbConnected && config == DefaultConfig
      ensures State() == InitialState() && requests == []
    {
      doctors, departments, services, appointments, notices := [], [], [], [], [];
      loading, dbConnected, config := true, false, DefaultConfig;
      requests := [];
    }

    method RefreshData(outcome: RefreshOutcome)
      modifies this
      ensures State() == Refreshed(old(State()), outcome)
      ensures requests == old(requests)
    {
      match outcome {
        case Threw =>
        case Fetched(snap) =>
          doctors := Replaced(snap.doctors, doctors);
          departments := Replaced(snap.departments, departments);
          services := Replaced(snap.services, services);
          appointments := Replaced(snap.appointments, appointments);
          notices := Replaced(snap.notices, notices);
          config := ReplacedConfig(snap.config, config);
          dbConnected := !SomeError(snap);
      }
      loading := false;
    }

    method AddDoctor(doc: DoctorDraft, refresh: RefreshOutcome)
      modifies this
      ensures State() == Refreshed(old(State()).(doctors := AddDoctorLocal(old(doctors), doc)), refresh)
      ensures requests == old(requests) + [InsertDoctor(doc)]
    {
      doctors := AddDoctorLocal(doctors, doc);
      requests := requests + [InsertDoctor(doc)];
      RefreshData(refresh);
    }

    method UpdateDoctor(id: string, patch: DoctorPatch, refresh: RefreshOutcome)
      modifies this
      ensures State() == Refreshed(old(State()).(doctors := UpdateDoctorLocal(old(doctors), id, patch)), refresh)
      ensures requests == old(requests) + [PatchDoctor(id, patch)]
    {
      doctors := UpdateDoctorLocal(doctors, id, patch);
      requests := requests + [PatchDoctor(id, patch)];
      RefreshData(refresh);
    }

    method RemoveDoctor(id: string, refresh: RefreshOutcome)
      modifies this
      ensures State() == Refreshed(old(State()).(doctors := Filter(old(doctors), DoctorIdDiffers, id)), refresh)
      ensures requests == old(requests) + [Delete(Doctors, id)]
    {
      doctors := Filter(doctors, DoctorIdDiffers, id);
      requests := requests + [Delete(Doctors, id)];
      RefreshData(refresh);
    }

    method AddDepartment(dept: DepartmentDraft, refresh: RefreshOutcome)
      modifies this
      ensures State() == Refreshed(old(State()).(departments := AddDepartmentLocal(old(departments), dept)), refresh)
      ensures requests == old(requests) + [InsertDepartment(dept)]
    {
      departments := AddDepartmentLocal(departments, dept);
      requests := requests + [InsertDepartment(dept)];
      RefreshData(refresh);
    }

    method RemoveDepartment(id: string, refresh: RefreshOutcome)
      modifies this
      ensures State() == Refreshed(old(State()).(departments := Filter(old(departments), DepartmentIdDiffers, id)), refresh)
      ensures requests == old(requests) + [Delete(Departments, id)]
    {
      departments := Filter(departments, DepartmentIdDiffers, id);
      requests := requests + [Delete(Departments, id)];
      RefreshData(refresh);
    }

    method AddService(service: ServiceDraft, refresh: RefreshOutcome)
      modifies this
      ensures State() == Refreshed(old(State()).(services := AddServiceLocal(old(services), service)), refresh)
      ensures requests == old(requests) + [InsertService(service)]
    {
      services := AddServiceLocal(services, service);
      requests := requests + [InsertService(service)];
      RefreshData(refresh);
    }

    method RemoveService(id: string, refresh: RefreshOutcome)
      modifies this
      ensures State() == Refreshed(old(State()).(services := Filter(old(services), ServiceIdDiffers, id)), refresh)
      ensures requests == old(requests) + [Delete(Services, id)]
    {
      services := Filter(services, ServiceIdDiffers, id);
      requests := requests + [Delete(Services, id)];
      RefreshData(refresh);
    }

    method AddNotice(notice: NoticeDraft, refresh: RefreshOutcome)
      modifies this
      ensures State() == Refreshed(old(State()).(notices := AddNoticeLocal(old(notices), notice)), refresh)
      ensures requests == old(requests) + [InsertNotice(notice)]
    {
      notices := AddNoticeLocal(notices, notice);
      requests := requests + [InsertNotice(notice)];
      RefreshData(refresh);
    }

    method RemoveNotice(id: string, refresh: RefreshOutcome)
      modifies this
      ensures State() == Refreshed(old(State()).(notices := Filter(old(notices), NoticeIdDiffers, id)), refresh)
      ensures requests == old(requests) + [Delete(Notices, id)]
    {
      notices := Filter(notices, NoticeIdDiffers, id);
      requests := requests + [Delete(Notices, id)];
      RefreshData(refresh);
    }

    /** The booking is cached and sent with status `Pending`, whatever the request. */
    method BookAppointment(apt: AppointmentRequest, refresh: RefreshOutcome)
      modifies this
      ensures State() == Refreshed(old(State()).(appointments := BookLocal(old(appointments), apt)), refresh)
      ensures requests == old(requests) + [InsertAppointment(apt, Pending)]
    {
      appointments := BookLocal(appointments, apt);
      requests := requests + [InsertAppointment(apt, Pending)];
      RefreshData(refresh);
    }

    method UpdateAppointment(id: string, patch: AppointmentPatch, refresh: RefreshOutcome)
      modifies this
      ensures State() == Refreshed(old(State()).(appointments := UpdateAppointmentLocal(old(appointments), id, patch)), refresh)
      ensures requests == old(requests) + [PatchAppointment(id, patch)]
    {
      appointments := UpdateAppointmentLocal(appointments, id, patch);
      requests := requests + [PatchAppointment(id, patch)];
      RefreshData(refresh);
    }

    method UpdateAppointmentStatus(id: string, status: Status, refresh: RefreshOutcome)
      modifies this
      ensures State() == Refreshed(old(State()).(appointments := SetStatusLocal(old(appointments), id, status)), refresh)
      ensures requests == old(requests) + [PatchAppointment(id, StatusPatch(status))]
    {
      appointments := SetStatusLocal(appointments, id, status);
      requests := requests + [PatchAppointment(id, StatusPatch(status))];
      RefreshData(refresh);
    }

    /**
     * `existing` is what the `select('id').limit(1)` on the config table
     * returned: the ids of the rows, or `None` for no data.
     */
    method UpdateConfig(patch: ConfigPatch, existing: Option<seq<string>>, refresh: RefreshOutcome)
      modifies this
      ensures State() == Refreshed(old(State()).(config := MergeConfig(old(config), patch)), refresh)
      ensures requests == old(requests) + [ConfigWrite(existing, patch)]
    {
      config := MergeConfig(config, patch);
      requests := requests + [ConfigWrite(existing, patch)];
      RefreshData(refresh);
    }
  }
}
