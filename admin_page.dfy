/**
 * The admin panel (pages/Admin.tsx): the add forms and their resets, the
 * comma-list parsing of a new doctor's days and slots, and the in-place
 * editing of an appointment row.
 */
module AdminPage {
  import opened Wrappers
  import opened Types
  import opened Seqs
  import opened Text
  import opened Store

  /** The new-doctor form; days and slots are typed as comma-separated text. */
  datatype DoctorForm = DoctorForm(
    name: string,
    qualification: string,
    departmentId: string,
    photo: string,
    availableDays: string,
    timeSlots: string)

  datatype NoticeForm = NoticeForm(title: string, content: string, isImportant: bool)

  const DefaultDays := "Mon, Wed, Fri"
  const DefaultSlots := "10 AM - 1 PM"

  /** The blank doctor form; `departments[0]?.id || ''` preselects the first department. */
  function BlankDoctorForm(departments: seq<Department>): (f: DoctorForm)
    ensures f.name == "" && f.qualification == "" && f.photo == ""
    ensures f.availableDays == DefaultDays && f.timeSlots == DefaultSlots
    ensures |departments| == 0 ==> f.departmentId == ""
    ensures |departments| > 0 ==> f.departmentId == departments[0].id
  {
    DoctorForm("", "", if |departments| > 0 then departments[0].id else "", "", DefaultDays, DefaultSlots)
  }

  const BlankNoticeForm := NoticeForm("", "", false)
  const BlankDepartmentForm := DepartmentDraft("", "", "")
  const BlankServiceForm := ServiceDraft("", "")

  /** `s.split(',').map(x => x.trim())` */
  function ParseList(s: string): (r: seq<string>)
    ensures |r| == Count(s, ',') + 1
    ensures forall i :: 0 <= i < |r| ==> r[i] == Trim(Split(s, ',')[i])
  {
    var pieces := Split(s, ',');
    seq(|pieces|, i requires 0 <= i < |pieces| => Trim(pieces[i]))
  }

  /** No parsed entry contains a comma, and each is already trimmed. */
  lemma ParsedEntriesClean(s: string)
    ensures forall i :: 0 <= i < |ParseList(s)| ==> ',' !in ParseList(s)[i] && Trim(ParseList(s)[i]) == ParseList(s)[i]
  {
    var pieces := Split(s, ',');
    forall i | 0 <= i < |pieces| ensures ',' !in Trim(pieces[i]) && Trim(Trim(pieces[i])) == Trim(pieces[i]) {
      TrimmedPiece(pieces[i]);
    }
  }

  /** Trimming a comma-free piece leaves it comma-free, and trimmed for good. */
  lemma TrimmedPiece(p: string)
    requires ',' !in p
    ensures ',' !in Trim(p) && Trim(Trim(p)) == Trim(p)
  {
    TrimIdempotent(p);
    TrimIsInfix(p);
    var t := Trim(p);
    var lead :| PaddingOf(p, t, lead);
    forall j | 0 <= j < |t| ensures t[j] != ',' {
      assert t[j] == p[lead + j];
    }
  }

  /** Parsing a comma-joined list trims each of its comma-free pieces. */
  lemma ParseJoined(pieces: seq<string>)
    requires |pieces| >= 1
    requires forall i :: 0 <= i < |pieces| ==> ',' !in pieces[i]
    ensures |ParseList(Join(pieces, ','))| == |pieces|
    ensures forall i :: 0 <= i < |pieces| ==> ParseList(Join(pieces, ','))[i] == Trim(pieces[i])
  {
    SplitJoin(pieces, ',');
  }

  /** A text that splits into three pieces parses to those three, trimmed. */
  lemma ParseThree(s: string, a: string, b: string, c: string)
    requires Split(s, ',') == [a, b, c]
    ensures ParseList(s) == [Trim(a), Trim(b), Trim(c)]
  {
    var r := ParseList(s);
    assert |r| == 3;
    assert r[0] == Trim(a) && r[1] == Trim(b) && r[2] == Trim(c);
  }

  /** A word with no white space at its edges, after one leading space, trims to itself. */
  lemma TrimLeadingSpace(w: string)
    requires w != [] && !IsWhiteSpace(w[0]) && !IsWhiteSpace(w[|w| - 1])
    ensures Trim(" " + w) == w
  {
    assert (" " + w)[1..] == w;
    assert TrimStart(" " + w) == TrimStart(w);
    TrimUnpadded(w);
  }

  lemma TrimMon() ensures Trim("Mon") == "Mon" { TrimUnpadded("Mon"); }
  lemma TrimWed() ensures Trim(" Wed") == "Wed" { TrimLeadingSpace("Wed"); assert " " + "Wed" == " Wed"; }
  lemma TrimFri() ensures Trim(" Fri") == "Fri" { TrimLeadingSpace("Fri"); assert " " + "Fri" == " Fri"; }

  /** The default days text parses to three days. */
  lemma DefaultDaysParse()
    ensures ParseList(DefaultDays) == ["Mon", "Wed", "Fri"]
  {
    assert DefaultDays == "Mon" + [','] + " Wed" + [','] + " Fri";
    SplitThree("Mon", " Wed", " Fri", ',');
    ParseThree(DefaultDays, "Mon", " Wed", " Fri");
    TrimMon();
    TrimWed();
    TrimFri();
  }

  /** A comma-free entry with no white space at its edges parses to itself alone. */
  lemma ParseSingle(w: string)
    requires ',' !in w
    requires w == [] || (!IsWhiteSpace(w[0]) && !IsWhiteSpace(w[|w| - 1]))
    ensures ParseList(w) == [w]
  {
    SplitNoSeparator(w, ',');
    TrimUnpadded(w);
  }

  /** The default slots text parses to that one slot. */
  lemma DefaultSlotsParse()
    ensures ParseList(DefaultSlots) == [DefaultSlots]
  {
    ParseSingle(DefaultSlots);
  }

  /** `{ ...newDoc, availableDays: parsed, timeSlots: parsed }` */
  function DoctorDraftOf(f: DoctorForm): (d: DoctorDraft)
    ensures d.name == f.name && d.qualification == f.qualification
    ensures d.departmentId == f.departmentId && d.photo == f.photo
    ensures |d.availableDays| == Count(f.availableDays, ',') + 1
    ensures |d.timeSlots| == Count(f.timeSlots, ',') + 1
    ensures forall i :: 0 <= i < |d.availableDays| ==> d.availableDays[i] == Trim(Split(f.availableDays, ',')[i])
    ensures forall i :: 0 <= i < |d.timeSlots| ==> d.timeSlots[i] == Trim(Split(f.timeSlots, ',')[i])
  {
    DoctorDraft(f.name, f.qualification, f.departmentId, f.photo, ParseList(f.availableDays), ParseList(f.timeSlots))
  }

  /**
   * Submitting the untouched blank form adds a doctor of the first
   * department who works Monday, Wednesday and Friday in one morning slot.
   */
  lemma BlankFormDraft(departments: seq<Department>)
    ensures DoctorDraftOf(BlankDoctorForm(departments)) ==
            DoctorDraft("", "", BlankDoctorForm(departments).departmentId, "", ["Mon", "Wed", "Fri"], ["10 AM - 1 PM"])
  {
    DefaultDaysParse();
    DefaultSlotsParse();
  }

  /** The specialist column: the first doctor with that id, else "Unknown Specialist" (also for an empty name). */
  function DoctorLabel(doctors: seq<Doctor>, doctorId: string): (shown: string)
    ensures (forall i :: 0 <= i < |doctors| ==> doctors[i].id != doctorId) ==> shown == "Unknown Specialist"
    ensures forall i :: 0 <= i < |doctors| && doctors[i].id == doctorId &&
                        (forall j :: 0 <= j < i ==> doctors[j].id != doctorId) ==>
                        shown == (if doctors[i].name == "" then "Unknown Specialist" else doctors[i].name)
  {
    match FirstIndex(doctors, DoctorIdIs, doctorId)
    case None => "Unknown Specialist"
    case Some(i) => if doctors[i].name == "" then "Unknown Specialist" else doctors[i].name
  }

  /** The edit in progress may be saved: `if (editingAptId)` is false for `null` and for `''`. */
  predicate EditInProgress(editingAptId: Option<string>)
    ensures EditInProgress(editingAptId) ==> editingAptId.Some?
    ensures editingAptId == None || editingAptId == Some("") ==> !EditInProgress(editingAptId)
    ensures editingAptId.Some? && editingAptId.value != "" ==> EditInProgress(editingAptId)
  {
    editingAptId.Some? && editingAptId.value != ""
  }

  class AdminPanel {
    var newDoc: DoctorForm
    var newNotice: NoticeForm
    var newDept: DepartmentDraft
    var newService: ServiceDraft
    var editingAptId: Option<string>
    var editAptData: AppointmentPatch

    /** The forms as the panel mounts, given the departments known at that moment. */
    constructor (departments: seq<Department>)
      ensures newDoc == BlankDoctorForm(departments) && newNotice == BlankNoticeForm
      ensures newDept == BlankDepartmentForm && newService == BlankServiceForm
      ensures editingAptId == None && editAptData == EmptyAppointmentPatch
    {
      newDoc := BlankDoctorForm(departments);
      newNotice := BlankNoticeForm;
      newDept := BlankDepartmentForm;
      newService := BlankServiceForm;
      editingAptId := None;
      editAptData := EmptyAppointmentPatch;
    }

    /**
     * `handleDocAdd`: adds the parsed doctor, then resets the form with the
     * departments the handler saw, which are those from before the add.
     */
    method HandleDocAdd(store: HospitalStore, refresh: RefreshOutcome)
      modifies this, store
      ensures store.State() == Refreshed(old(store.State()).(doctors := AddDoctorLocal(old(store.doctors), DoctorDraftOf(old(newDoc)))), refresh)
      ensures store.requests == old(store.requests) + [InsertDoctor(DoctorDraftOf(old(newDoc)))]
      ensures newDoc == BlankDoctorForm(old(store.departments))
      ensures newNotice == old(newNotice) && newDept == old(newDept) && newService == old(newService)
      ensures editingAptId == old(editingAptId) && editAptData == old(editAptData)
    {
      var departments := store.departments;
      store.AddDoctor(DoctorDraftOf(newDoc), refresh);
      newDoc := BlankDoctorForm(departments);
    }

    /** `handleNoticeAdd`; `today` is the browser's `toLocaleDateString()`. */
    method HandleNoticeAdd(store: HospitalStore, today: string, refresh: RefreshOutcome)
      modifies this, store
      ensures store.State() == Refreshed(old(store.State()).(notices := AddNoticeLocal(old(store.notices),
                NoticeDraft(old(newNotice).title, old(newNotice).content, today, old(newNotice).isImportant))), refresh)
      ensures store.requests == old(store.requests) +
                [InsertNotice(NoticeDraft(old(newNotice).title, old(newNotice).content, today, old(newNotice).isImportant))]
      ensures newNotice == BlankNoticeForm
      ensures newDoc == old(newDoc) && newDept == old(newDept) && newService == old(newService)
      ensures editingAptId == old(editingAptId) && editAptData == old(editAptData)
    {
      store.AddNotice(NoticeDraft(newNotice.title, newNotice.content, today, newNotice.isImportant), refresh);
      newNotice := BlankNoticeForm;
    }

    method HandleDeptAdd(store: HospitalStore, refresh: RefreshOutcome)
      modifies this, store
      ensures store.State() == Refreshed(old(store.State()).(departments := AddDepartmentLocal(old(store.departments), old(newDept))), refresh)
      ensures store.requests == old(store.requests) + [InsertDepartment(old(newDept))]
      ensures newDept == BlankDepartmentForm
      ensures newDoc == old(newDoc) && newNotice == old(newNotice) && newService == old(newService)
      ensures editingAptId == old(editingAptId) && editAptData == old(editAptData)
    {
      store.AddDepartment(newDept, refresh);
      newDept := BlankDepartmentForm;
    }

    method HandleServiceAdd(store: HospitalStore, refresh: RefreshOutcome)
      modifies this, store
      ensures store.State() == Refreshed(old(store.State()).(services := AddServiceLocal(old(store.services), old(newService))), refresh)
      ensures store.requests == old(store.requests) + [InsertService(old(newService))]
      ensures newService == BlankServiceForm
      ensures newDoc == old(newDoc) && newNotice == old(newNotice) && newDept == old(newDept)
      ensures editingAptId == old(editingAptId) && editAptData == old(editAptData)
    {
      store.AddService(newService, refresh);
      newService := BlankServiceForm;
    }

    /** `startEditingApt`: the row's id becomes the edit id and the whole row the edit buffer. */
    method StartEditingApt(apt: Appointment)
      modifies this
      ensures editingAptId == Some(apt.id) && editAptData == FullPatch(apt)
      ensures newDoc == old(newDoc) && newNotice == old(newNotice)
      ensures newDept == old(newDept) && newService == old(newService)
    {
      editingAptId := Some(apt.id);
      editAptData := FullPatch(apt);
    }

    method EditPatientName(value: string)
      modifies this
      ensures editAptData == old(editAptData).(patientName := Some(value))
      ensures editingAptId == old(editingAptId) && newDoc == old(newDoc) && newNotice == old(newNotice)
      ensures newDept == old(newDept) && newService == old(newService)
    {
      editAptData := editAptData.(patientName := Some(value));
    }

    method EditDate(value: string)
      modifies this
      ensures editAptData == old(editAptData).(date := Some(value))
      ensures editingAptId == old(editingAptId) && newDoc == old(newDoc) && newNotice == old(newNotice)
      ensures newDept == old(newDept) && newService == old(newService)
    {
      editAptData := editAptData.(date := Some(value));
    }

    method EditTimeSlot(value: string)
      modifies this
      ensures editAptData == old(editAptData).(timeSlot := Some(value))
      ensures editingAptId == old(editingAptId) && newDoc == old(newDoc) && newNotice == old(newNotice)
      ensures newDept == old(newDept) && newService == old(newService)
    {
      editAptData := editAptData.(timeSlot := Some(value));
    }

    /** `saveAptEdit`: with an edit in progress, send the buffer and clear the edit id; otherwise do nothing. */
    method SaveAptEdit(store: HospitalStore, refresh: RefreshOutcome)
      modifies this, store
      ensures EditInProgress(old(editingAptId)) ==>
        store.State() == Refreshed(old(store.State()).(appointments :=
          UpdateAppointmentLocal(old(store.appointments), old(editingAptId).value, old(editAptData))), refresh) &&
        store.requests == old(store.requests) + [PatchAppointment(old(editingAptId).value, old(editAptData))] &&
        editingAptId == None
      ensures !EditInProgress(old(editingAptId)) ==>
        store.State() == old(store.State()) && store.requests == old(store.requests) &&
        editingAptId == old(editingAptId)
      ensures editAptData == old(editAptData) && newDoc == old(newDoc) && newNotice == old(newNotice)
      ensures newDept == old(newDept) && newService == old(newService)
    {
      if EditInProgress(editingAptId) {
        store.UpdateAppointment(editingAptId.value, editAptData, refresh);
        editingAptId := None;
      }
    }
  }

  /**
   * Saving an edit that changed nothing rewrites the rows carrying that id
   * with the appointment that was being edited, and leaves every other row.
   */
  lemma SaveUnchangedEdit(appointments: seq<Appointment>, apt: Appointment)
    ensures UpdateAppointmentLocal(appointments, apt.id, FullPatch(apt)) ==
            seq(|appointments|, i requires 0 <= i < |appointments| =>
                if appointments[i].id == apt.id then apt else appointments[i])
  {
    var r := UpdateAppointmentLocal(appointments, apt.id, FullPatch(apt));
    forall i | 0 <= i < |appointments| && appointments[i].id == apt.id ensures r[i] == apt {
      MergeFullPatch(appointments[i], apt);
    }
  }
}
