/** The session state of the appointment scheduler component: the
    department/doctor filter, the booking draft of the new-appointment modal,
    the snapshot shown in the detail modal, the loading flag, and an ordered
    log of what the component does to the outside world (toasts, Apex calls,
    calendar commands).

    Each Apex call is split in two: the handler that issues it appends the
    call to `effects`, and a separate `...Settled` method applies the outcome
    the backend delivers later. Outcomes are applied to whatever the state is
    when they arrive, as in the component, which has no request counter. */
module AppointmentScheduler {
  import opened Runtime

  /** A Doctor__c record as the Apex controller returns it. */
  datatype Doctor = Doctor(id: string, name: string)

  /** A Patient__c record as `searchPatients` returns it. */
  datatype Patient = Patient(id: string, name: string, patientCode: string)

  /** A `{ label, value }` entry of a combobox; `text` is the label. */
  datatype Choice = Choice(text: string, value: string)

  /** A calendar selection; instants are abstract ordered integers. */
  datatype Slot = Slot(start: int, end: int)

  /** `event.extendedProps` of a calendar event. */
  datatype ExtendedProps = ExtendedProps(patientId: string, doctorId: string, doctorName: string, status: string)

  /** A calendar event as FullCalendar hands it to a click handler. */
  datatype CalendarEvent = CalendarEvent(id: string, title: string, start: int, end: int, extendedProps: ExtendedProps)

  /** `selectedEvent`: the flat copy of a clicked event that the detail modal edits. */
  datatype EventDetail = EventDetail(
    id: string, title: string, start: int, end: int,
    patientId: string, doctorId: string, doctorName: string, status: string)

  /** The fields of the new-appointment modal, taken together. */
  datatype BookingDraft = BookingDraft(
    isOpen: bool, searchTerm: string, patientOptions: seq<Choice>,
    patientId: Option<string>, slot: Option<Slot>, reason: string)

  /** Everything the component does that leaves it. */
  datatype Effect =
    | Notify(toast: Toast)
    | GetDoctors
    | GetDoctorsByDepartment(department: string)
    | SearchPatients(searchTerm: string)
    | ScheduleAppointment(patientId: string, doctorId: string, startTime: int, endTime: int, reasonForVisit: string)
    | UpdateAppointmentTime(appointmentId: string, newStartTime: int, newEndTime: int)
    | UpdateAppointmentStatus(appointmentId: string, newStatus: string)
    | DeleteAppointment(appointmentId: string)
    | RefetchEvents
    | Revert(eventId: string)

  const AllDoctors := Choice("All Doctors", "")
  const AllDepartments := Choice("All Departments", "")

  const DoctorsLoadFailed := "Could not load the list of doctors."
  const DepartmentsLoadFailed := "Could not load departments."
  const DoctorsFetchFailed := "Could not fetch doctors."
  const PatientsFetchFailed := "Could not fetch patients."
  const SelectDoctorFirst := "Please select a doctor before booking an appointment."
  const SelectPatient := "Please select a patient."
  const EnterReason := "Please enter a reason for the visit."
  const Booked := "Appointment was successfully booked."
  const BookFailed := "Could not book appointment."
  const Rescheduled := "Appointment was successfully rescheduled."
  const RescheduleFailed := "Could not reschedule."
  const StatusUpdated := "Appointment status updated."
  const StatusUpdateFailed := "Could not update status."
  const Deleted := "Appointment deleted."
  const DeleteFailed := "Could not delete."

  /** The length a patient search term needs before a search is scheduled. */
  const MinSearchLength := 2

  function InfoToast(message: string): Toast {
    Toast("Info", message, "info")
  }

  function DoctorChoice(d: Doctor): Choice {
    Choice(d.name, d.id)
  }

  function DepartmentChoice(department: string): Choice {
    Choice(department, department)
  }

  function PatientChoice(p: Patient): Choice {
    Choice(p.name + " (ID: " + p.patientCode + ")", p.id)
  }

  /** The doctor combobox after a successful load: the "All Doctors" sentinel
      first, then one choice per doctor in the backend's order. */
  function DoctorOptions(doctors: seq<Doctor>): (r: seq<Choice>)
    ensures |r| == |doctors| + 1 && r[0] == AllDoctors
    ensures forall i :: 0 <= i < |doctors| ==> r[i + 1] == Choice(doctors[i].name, doctors[i].id)
  {
    [AllDoctors] + Map(doctors, DoctorChoice)
  }

  /** The department combobox after a successful load. */
  function DepartmentOptions(departments: seq<string>): (r: seq<Choice>)
    ensures |r| == |departments| + 1 && r[0] == AllDepartments
    ensures forall i :: 0 <= i < |departments| ==> r[i + 1] == Choice(departments[i], departments[i])
  {
    [AllDepartments] + Map(departments, DepartmentChoice)
  }

  /** Picking a non-empty value from the doctor combobox selects a doctor the
      last successful load returned, and every such doctor can be picked. */
  lemma {:induction false} DoctorOptionsOfferExactlyTheLoadedDoctors(doctors: seq<Doctor>, id: string)
    requires id != ""
    ensures (exists c :: c in DoctorOptions(doctors) && c.value == id)
        <==> (exists d :: d in doctors && d.id == id)
  {
    var r := DoctorOptions(doctors);
    if exists c :: c in r && c.value == id {
      var c :| c in r && c.value == id;
      var k :| 0 <= k < |r| && r[k] == c;
      assert k != 0;
      assert doctors[k - 1] in doctors;
    }
    if exists d :: d in doctors && d.id == id {
      var d :| d in doctors && d.id == id;
      var k :| 0 <= k < |doctors| && doctors[k] == d;
      assert r[k + 1] in r;
    }
  }

  /** Whether a patient search term is long enough to schedule a search
      (`term && term.length >= 2`, length in UTF-16 code units). */
  predicate SearchTermQualifies(term: string) {
    Truthy(term) && Utf16Length(term) >= MinSearchLength
  }

  /** A single character outside the Basic Multilingual Plane is already long
      enough, while any single other character is not. */
  lemma SearchTermOfOneCharacter(c: char)
    ensures SearchTermQualifies([c]) <==> c as int > 0xFFFF
  {
  }

  /** The first reason `confirmAppointment` refuses to book, or None when it
      goes ahead: the patient check comes before the reason check. */
  function BookingError(patientId: Option<string>, reason: string): (r: Option<string>)
    ensures r == None <==> patientId.Some? && Truthy(patientId.value) && Truthy(reason)
    ensures (patientId.None? || !Truthy(patientId.value)) ==> r == Some(SelectPatient)
  {
    if patientId.None? || !Truthy(patientId.value) then Some(SelectPatient)
    else if !Truthy(reason) then Some(EnterReason)
    else None
  }

  /** A booking with a patient but without a reason is refused with the reason
      message and nothing else. */
  lemma BookingWithoutReasonIsRefused(patientId: string)
    requires Truthy(patientId)
    ensures BookingError(Some(patientId), "") == Some(EnterReason)
  {
  }

  /** `selectedEvent` as `handleEventClick` builds it. */
  function Snapshot(e: CalendarEvent): EventDetail {
    EventDetail(e.id, e.title, e.start, e.end,
                e.extendedProps.patientId, e.extendedProps.doctorId,
                e.extendedProps.doctorName, e.extendedProps.status)
  }

  /** Over the fields the model keeps of a calendar event, the flat copy is
      injective: two such events have the same snapshot exactly when they are
      the same event. */
  lemma SnapshotIsLossless(e1: CalendarEvent, e2: CalendarEvent)
    ensures Snapshot(e1) == Snapshot(e2) <==> e1 == e2
  {
    if Snapshot(e1) == Snapshot(e2) {
      assert e1.extendedProps == e2.extendedProps;
    }
  }

  /** Editing the snapshot's status is the snapshot of the same event with
      that status: the id the save sends and every other field stay those of
      the clicked event. */
  lemma StatusEditKeepsTheEvent(e: CalendarEvent, status: string)
    ensures Snapshot(e).(status := status) == Snapshot(e.(extendedProps := e.extendedProps.(status := status)))
    ensures Snapshot(e).(status := status).id == e.id
  {
  }

  /** The draft of a closed new-appointment modal. */
  const ClosedDraft := BookingDraft(false, "", [], None, None, "")

  /** `selectedEvent` before any event is clicked (`{}`): every field blank. */
  const NoEvent := EventDetail("", "", 0, 0, "", "", "", "")

  class Scheduler {
    var isLoading: bool

    var departmentOptions: seq<Choice>
    var selectedDepartment: string
    var doctorOptions: seq<Choice>
    var selectedDoctorId: string

    var isModalOpen: bool
    var selectedEvent: EventDetail

    var isPatientModalOpen: bool
    var patientSearchTerm: string
    var patientOptions: seq<Choice>
    var selectedPatientId: Option<string>
    var selectedSlot: Option<Slot>
    var reasonForVisit: string
    /** Whether a debounced patient search is waiting to fire. The timer's
        callback reads `patientSearchTerm` when it fires, so it carries no term. */
    var searchTimerPending: bool

    var effects: seq<Effect>

    /** The invariants every handler keeps: a slot is held exactly while the
        new-appointment modal is open, and a loaded option list starts with
        its "all" sentinel. */
    ghost predicate Valid()
      reads this
    {
      && (selectedSlot.Some? <==> isPatientModalOpen)
      && (doctorOptions == [] || doctorOptions[0] == AllDoctors)
      && (departmentOptions == [] || departmentOptions[0] == AllDepartments)
    }

    function Draft(): BookingDraft
      reads this
    {
      BookingDraft(isPatientModalOpen, patientSearchTerm, patientOptions,
                   selectedPatientId, selectedSlot, reasonForVisit)
    }

    constructor ()
      ensures Valid()
      ensures isLoading && effects == []
      ensures departmentOptions == [] && selectedDepartment == ""
      ensures doctorOptions == [] && selectedDoctorId == ""
      ensures !isModalOpen && selectedEvent == NoEvent
      ensures Draft() == ClosedDraft && !searchTimerPending
    {
      isLoading := true;
      departmentOptions, selectedDepartment := [], "";
      doctorOptions, selectedDoctorId := [], "";
      isModalOpen, selectedEvent := false, NoEvent;
      isPatientModalOpen, patientSearchTerm, patientOptions := false, "", [];
      selectedPatientId, selectedSlot, reasonForVisit := None, None, "";
      searchTimerPending := false;
      effects := [];
    }

    // --- wired initial loads ---

    /** `wiredDoctors`: `result` is None while the wire has provided neither
        data nor an error. */
    method WiredDoctors(result: Option<Outcome<seq<Doctor>>>)
      requires Valid()
      modifies this`doctorOptions, this`effects
      ensures Valid()
      ensures result.Some? && result.value.Success? ==>
        doctorOptions == DoctorOptions(result.value.value) && effects == old(effects)
      ensures result.Some? && result.value.Failure? ==>
        doctorOptions == old(doctorOptions) && effects == old(effects) + [Notify(ErrorToast(DoctorsLoadFailed))]
      ensures result.None? ==> doctorOptions == old(doctorOptions) && effects == old(effects)
    {
      if result.Some? {
        match result.value
        case Success(doctors) =>
          doctorOptions := Map(doctors, DoctorChoice);
          doctorOptions := [AllDoctors] + doctorOptions;
        case Failure(_) =>
          effects := effects + [Notify(ErrorToast(DoctorsLoadFailed))];
      }
    }

    /** `wiredDepartments`. */
    method WiredDepartments(result: Option<Outcome<seq<string>>>)
      requires Valid()
      modifies this`departmentOptions, this`effects
      ensures Valid()
      ensures result.Some? && result.value.Success? ==>
        departmentOptions == DepartmentOptions(result.value.value) && effects == old(effects)
      ensures result.Some? && result.value.Failure? ==>
        departmentOptions == old(departmentOptions) && effects == old(effects) + [Notify(ErrorToast(DepartmentsLoadFailed))]
      ensures result.None? ==> departmentOptions == old(departmentOptions) && effects == old(effects)
    {
      if result.Some? {
        match result.value
        case Success(departments) =>
          departmentOptions := Map(departments, DepartmentChoice);
          departmentOptions := [AllDepartments] + departmentOptions;
        case Failure(_) =>
          effects := effects + [Notify(ErrorToast(DepartmentsLoadFailed))];
      }
    }

    // --- filter handlers ---

    /** `handleDepartmentChange`, up to the request: the doctor selection is
        cleared at once, and the doctors of the department (all doctors for
        the empty department) are requested. No event refetch is issued. */
    method HandleDepartmentChange(department: string)
      requires Valid()
      modifies this`selectedDepartment, this`selectedDoctorId, this`effects
      ensures Valid()
      ensures selectedDepartment == department && selectedDoctorId == ""
      ensures effects == old(effects) + [if Truthy(department) then GetDoctorsByDepartment(department) else GetDoctors]
    {
      selectedDepartment := department;
      selectedDoctorId := "";
      if Truthy(selectedDepartment) {
        effects := effects + [GetDoctorsByDepartment(selectedDepartment)];
      } else {
        effects := effects + [GetDoctors];
      }
    }

    /** The doctor request of `handleDepartmentChange` settles: on success the
        options are replaced, sentinel first; on failure they stay as they
        were and one error toast is shown. The selection is not touched. */
    method DepartmentDoctorsSettled(result: Outcome<seq<Doctor>>)
      requires Valid()
      requires exists e :: e in effects && (e.GetDoctors? || e.GetDoctorsByDepartment?)
      modifies this`doctorOptions, this`effects
      ensures Valid()
      ensures result.Success? ==>
        doctorOptions == DoctorOptions(result.value) && effects == old(effects)
      ensures result.Failure? ==>
        doctorOptions == old(doctorOptions) && effects == old(effects) + [Notify(ErrorToast(DoctorsFetchFailed))]
    {
      match result
      case Success(doctors) =>
        doctorOptions := Map(doctors, DoctorChoice);
        doctorOptions := [AllDoctors] + doctorOptions;
      case Failure(_) =>
        effects := effects + [Notify(ErrorToast(DoctorsFetchFailed))];
    }

    /** `handleDoctorChange`: select the doctor and refetch the calendar. */
    method HandleDoctorChange(doctorId: string)
      requires Valid()
      modifies this`selectedDoctorId, this`effects
      ensures Valid()
      ensures selectedDoctorId == doctorId
      ensures effects == old(effects) + [RefetchEvents]
    {
      selectedDoctorId := doctorId;
      effects := effects + [RefetchEvents];
    }

    // --- new appointment ---

    /** `handleSlotSelect`: without a selected doctor only an info toast is
        shown; otherwise the slot is kept and the patient modal opens. */
    method HandleSlotSelect(slot: Slot)
      requires Valid()
      modifies this`selectedSlot, this`isPatientModalOpen, this`effects
      ensures Valid()
      ensures !Truthy(selectedDoctorId) ==>
        selectedSlot == old(selectedSlot) && isPatientModalOpen == old(isPatientModalOpen)
        && effects == old(effects) + [Notify(InfoToast(SelectDoctorFirst))]
      ensures Truthy(selectedDoctorId) ==>
        selectedSlot == Some(slot) && isPatientModalOpen && effects == old(effects)
    {
      if !Truthy(selectedDoctorId) {
        effects := effects + [Notify(InfoToast(SelectDoctorFirst))];
        return;
      }
      selectedSlot := Some(slot);
      isPatientModalOpen := true;
    }

    /** `handlePatientSearch`: the pending timer is always cancelled; a term
        long enough schedules one new search, any other term clears the
        candidate list instead. */
    method HandlePatientSearch(term: string)
      requires Valid()
      modifies this`patientSearchTerm, this`searchTimerPending, this`patientOptions
      ensures Valid()
      ensures patientSearchTerm == term
      ensures SearchTermQualifies(term) ==> searchTimerPending && patientOptions == old(patientOptions)
      ensures !SearchTermQualifies(term) ==> !searchTimerPending && patientOptions == []
    {
      patientSearchTerm := term;
      searchTimerPending := false;
      if SearchTermQualifies(patientSearchTerm) {
        searchTimerPending := true;
      } else {
        patientOptions := [];
      }
    }

    /** The 300 ms search timer fires: it searches for the term held at that
        moment. With no timer pending nothing happens. */
    method SearchTimerFires()
      requires Valid()
      modifies this`searchTimerPending, this`effects
      ensures Valid()
      ensures !searchTimerPending
      ensures old(searchTimerPending) ==> effects == old(effects) + [SearchPatients(patientSearchTerm)]
      ensures !old(searchTimerPending) ==> effects == old(effects)
    {
      if searchTimerPending {
        searchTimerPending := false;
        effects := effects + [SearchPatients(patientSearchTerm)];
      }
    }

    /** The patient search settles: the candidates are replaced wholesale, or
        an error toast is shown and they stay. */
    method PatientSearchSettled(result: Outcome<seq<Patient>>)
      requires Valid()
      requires exists e :: e in effects && e.SearchPatients?
      modifies this`patientOptions, this`effects
      ensures Valid()
      ensures result.Success? ==> patientOptions == Map(result.value, PatientChoice) && effects == old(effects)
      ensures result.Failure? ==>
        patientOptions == old(patientOptions) && effects == old(effects) + [Notify(ErrorToast(PatientsFetchFailed))]
    {
      match result
      case Success(patients) =>
        patientOptions := Map(patients, PatientChoice);
      case Failure(_) =>
        effects := effects + [Notify(ErrorToast(PatientsFetchFailed))];
    }

    /** `handlePatientSelect`. */
    method HandlePatientSelect(patientId: string)
      requires Valid()
      modifies this`selectedPatientId
      ensures Valid()
      ensures selectedPatientId == Some(patientId)
    {
      selectedPatientId := Some(patientId);
    }

    /** `handleReasonChange`. */
    method HandleReasonChange(reason: string)
      requires Valid()
      modifies this`reasonForVisit
      ensures Valid()
      ensures reasonForVisit == reason
    {
      reasonForVisit := reason;
    }

    /** `confirmAppointment`, up to the request. A refused booking shows one
        error toast and calls nothing. An accepted one sets the loading flag
        and books the slot for the selected doctor; with no slot held the
        property access raises after the flag is set, and nothing is called. */
    method ConfirmAppointment()
      requires Valid()
      modifies this`isLoading, this`effects
      ensures Valid()
      ensures BookingError(selectedPatientId, reasonForVisit).Some? ==>
        isLoading == old(isLoading)
        && effects == old(effects) + [Notify(ErrorToast(BookingError(selectedPatientId, reasonForVisit).value))]
      ensures BookingError(selectedPatientId, reasonForVisit).None? ==>
        isLoading
        && (selectedSlot.None? ==> effects == old(effects))
        && (selectedSlot.Some? ==> effects == old(effects) + [ScheduleAppointment(
              selectedPatientId.value, selectedDoctorId, selectedSlot.value.start, selectedSlot.value.end, reasonForVisit)])
    {
      if selectedPatientId.None? || !Truthy(selectedPatientId.value) {
        effects := effects + [Notify(ErrorToast(SelectPatient))];
        return;
      }
      if !Truthy(reasonForVisit) {
        effects := effects + [Notify(ErrorToast(EnterReason))];
        return;
      }
      isLoading := true;
      if selectedSlot.None? {
        return;
      }
      effects := effects + [ScheduleAppointment(
        selectedPatientId.value, selectedDoctorId, selectedSlot.value.start, selectedSlot.value.end, reasonForVisit)];
    }

    /** The booking settles: on success a toast, a calendar refetch and a
        closed, emptied draft; on failure an error toast and the draft as it
        was, modal still open. The loading flag is released either way. */
    method BookingSettled(result: Outcome<string>)
      requires Valid()
      requires exists e :: e in effects && e.ScheduleAppointment?
      modifies this`isLoading, this`effects, this`isPatientModalOpen, this`patientSearchTerm,
               this`patientOptions, this`selectedPatientId, this`selectedSlot, this`reasonForVisit
      ensures Valid()
      ensures !isLoading
      ensures result.Success? ==>
        Draft() == ClosedDraft && effects == old(effects) + [Notify(SuccessToast(Booked)), RefetchEvents]
      ensures result.Failure? ==>
        Draft() == old(Draft()) && effects == old(effects) + [Notify(ErrorToast(ErrorText(result.body, BookFailed)))]
    {
      match result {
        case Success(_) =>
          effects := effects + [Notify(SuccessToast(Booked))];
          effects := effects + [RefetchEvents];
          ClosePatientModal();
        case Failure(body) =>
          effects := effects + [Notify(ErrorToast(ErrorText(body, BookFailed)))];
      }
      isLoading := false;
    }

    /** `closePatientModal`: every draft field back to empty. The search
        timer is not cancelled. */
    method ClosePatientModal()
      requires Valid()
      modifies this`isPatientModalOpen, this`patientSearchTerm, this`patientOptions,
               this`selectedPatientId, this`selectedSlot, this`reasonForVisit
      ensures Valid()
      ensures Draft() == ClosedDraft
    {
      isPatientModalOpen := false;
      patientSearchTerm := "";
      patientOptions := [];
      selectedPatientId := None;
      selectedSlot := None;
      reasonForVisit := "";
    }

    // --- existing appointment ---

    /** `handleEventDrop`, up to the request: the calendar has already moved
        the event; the new times are sent to the backend. */
    method HandleEventDrop(eventId: string, newStart: int, newEnd: int)
      requires Valid()
      modifies this`isLoading, this`effects
      ensures Valid()
      ensures isLoading
      ensures effects == old(effects) + [UpdateAppointmentTime(eventId, newStart, newEnd)]
    {
      isLoading := true;
      effects := effects + [UpdateAppointmentTime(eventId, newStart, newEnd)];
    }

    /** An issued reschedule `request` settles: on success a toast; on failure
        the dropped event is reverted exactly once, then an error toast. The
        loading flag is released either way. */
    method DropSettled(request: Effect, result: Outcome<()>)
      requires Valid()
      requires request.UpdateAppointmentTime? && request in effects
      modifies this`isLoading, this`effects
      ensures Valid()
      ensures !isLoading
      ensures result.Success? ==> effects == old(effects) + [Notify(SuccessToast(Rescheduled))]
      ensures result.Failure? ==>
        effects == old(effects) + [Revert(request.appointmentId), Notify(ErrorToast(ErrorText(result.body, RescheduleFailed)))]
    {
      match result {
        case Success(_) =>
          effects := effects + [Notify(SuccessToast(Rescheduled))];
        case Failure(body) =>
          effects := effects + [Revert(request.appointmentId)];
          effects := effects + [Notify(ErrorToast(ErrorText(body, RescheduleFailed)))];
      }
      isLoading := false;
    }

    /** `handleEventClick`: snapshot the event and open the detail modal. */
    method HandleEventClick(e: CalendarEvent)
      requires Valid()
      modifies this`selectedEvent, this`isModalOpen
      ensures Valid()
      ensures selectedEvent == Snapshot(e) && isModalOpen
    {
      selectedEvent := Snapshot(e);
      isModalOpen := true;
    }

    /** `closeModal`: the snapshot itself is kept. */
    method CloseModal()
      requires Valid()
      modifies this`isModalOpen
      ensures Valid()
      ensures !isModalOpen
    {
      isModalOpen := false;
    }

    /** `handleStatusChange`: only the snapshot's status changes. */
    method HandleStatusChange(status: string)
      requires Valid()
      modifies this`selectedEvent
      ensures Valid()
      ensures selectedEvent == old(selectedEvent).(status := status)
    {
      selectedEvent := selectedEvent.(status := status);
    }

    /** `handleSave`, up to the request. */
    method HandleSave()
      requires Valid()
      modifies this`isLoading, this`effects
      ensures Valid()
      ensures isLoading
      ensures effects == old(effects) + [UpdateAppointmentStatus(selectedEvent.id, selectedEvent.status)]
    {
      isLoading := true;
      effects := effects + [UpdateAppointmentStatus(selectedEvent.id, selectedEvent.status)];
    }

    /** The status update settles: on success a toast, a refetch and a closed
        detail modal; on failure an error toast and the modal as it was. */
    method SaveSettled(result: Outcome<()>)
      requires Valid()
      requires exists e :: e in effects && e.UpdateAppointmentStatus?
      modifies this`isLoading, this`effects, this`isModalOpen
      ensures Valid()
      ensures !isLoading
      ensures result.Success? ==>
        !isModalOpen && effects == old(effects) + [Notify(SuccessToast(StatusUpdated)), RefetchEvents]
      ensures result.Failure? ==>
        isModalOpen == old(isModalOpen)
        && effects == old(effects) + [Notify(ErrorToast(ErrorText(result.body, StatusUpdateFailed)))]
    {
      match result {
        case Success(_) =>
          effects := effects + [Notify(SuccessToast(StatusUpdated))];
          effects := effects + [RefetchEvents];
          CloseModal();
        case Failure(body) =>
          effects := effects + [Notify(ErrorToast(ErrorText(body, StatusUpdateFailed)))];
      }
      isLoading := false;
    }

    /** `handleDelete`, up to the request; `confirmed` is the user's answer to
        the confirmation prompt. Declining changes nothing. */
    method HandleDelete(confirmed: bool)
      requires Valid()
      modifies this`isLoading, this`effects
      ensures Valid()
      ensures confirmed ==> isLoading && effects == old(effects) + [DeleteAppointment(selectedEvent.id)]
      ensures !confirmed ==> isLoading == old(isLoading) && effects == old(effects)
    {
      if confirmed {
        isLoading := true;
        effects := effects + [DeleteAppointment(selectedEvent.id)];
      }
    }

    /** The delete settles: on success a toast, a refetch and a closed detail
        modal; on failure an error toast and the modal as it was. */
    method DeleteSettled(result: Outcome<()>)
      requires Valid()
      requires exists e :: e in effects && e.DeleteAppointment?
      modifies this`isLoading, this`effects, this`isModalOpen
      ensures Valid()
      ensures !isLoading
      ensures result.Success? ==>
        !isModalOpen && effects == old(effects) + [Notify(SuccessToast(Deleted)), RefetchEvents]
      ensures result.Failure? ==>
        isModalOpen == old(isModalOpen)
        && effects == old(effects) + [Notify(ErrorToast(ErrorText(result.body, DeleteFailed)))]
    {
      match result {
        case Success(_) =>
          effects := effects + [Notify(SuccessToast(Deleted))];
          effects := effects + [RefetchEvents];
          CloseModal();
        case Failure(body) =>
          effects := effects + [Notify(ErrorToast(ErrorText(body, DeleteFailed)))];
      }
      isLoading := false;
    }
  }

  /** A drag the backend rejects with a message: the event snaps back once and
      the backend's own words are shown; a confirmed drag reverts nothing. */
  method ScenarioRejectedDrop()
  {
    var s := new Scheduler();
    s.HandleEventDrop("a1", 10, 12);
    s.DropSettled(s.effects[0], Success(()));
    assert s.effects == [UpdateAppointmentTime("a1", 10, 12), Notify(SuccessToast(Rescheduled))];
    s.HandleEventDrop("a2", 20, 22);
    s.DropSettled(s.effects[2], Failure(Body(Some("slot conflict"))));
    assert s.effects[3..] == [Revert("a2"), Notify(ErrorToast("slot conflict"))];
    assert !s.isLoading;
  }

  /** A slot taken while a doctor is selected, followed by a department change,
      books with the empty doctor id: the doctor is checked only when the slot
      is selected, and the department change clears it. */
  method ScenarioDoctorClearedAfterSlot()
  {
    var s := new Scheduler();
    s.HandleDoctorChange("D1");
    s.HandleSlotSelect(Slot(1, 2));
    s.HandleDepartmentChange("");
    s.HandlePatientSelect("P1");
    s.HandleReasonChange("checkup");
    var before := |s.effects|;
    s.ConfirmAppointment();
    assert s.effects[before..] == [ScheduleAppointment("P1", "", 1, 2, "checkup")];
  }

  /** Clicking an event, changing its status and saving sends that event's id
      with the new status, and nothing else. */
  method ScenarioEditStatus(e: CalendarEvent)
  {
    var s := new Scheduler();
    s.HandleEventClick(e);
    s.HandleStatusChange("Completed");
    s.HandleSave();
    StatusEditKeepsTheEvent(e, "Completed");
    assert s.effects == [UpdateAppointmentStatus(e.id, "Completed")];
  }

  /** Closing the booking modal while a search is pending leaves the timer
      running, and it then searches for the emptied term. */
  method ScenarioCloseWithPendingSearch()
  {
    var s := new Scheduler();
    s.HandlePatientSearch("Jo");
    s.ClosePatientModal();
    s.SearchTimerFires();
    assert s.effects == [SearchPatients("")];
  }
}
