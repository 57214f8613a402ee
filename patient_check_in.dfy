/** The patient check-in board: a table of appointments, each row decorated
    with the one action its status allows, date filters, a debounced search
    box, and the check-in modal. Apex calls are effects appended to an ordered
    log; each call's outcome is applied by a separate `...Settled` method. */
module PatientCheckIn {
  import opened Runtime

  /** A record reached through a lookup field (`Patient__r`, `Doctor__r`). */
  datatype Person = Person(name: string, contactNumber: string)

  /** An Appointment__c record as `getAppointments` returns it; instants are
      the ISO text the backend sends. */
  datatype Appointment = Appointment(
    id: string, status: string, startTime: string, reasonForVisit: string,
    patient: Person, doctor: Person)

  /** A `{ label, name }` row action; `text` is the label. */
  datatype RowAction = RowAction(text: string, name: string)

  /** A table row: every field of the original record (`...appt`) plus the
      decoration the table columns read. */
  datatype Row = Row(
    record: Appointment, patientName: string, doctorName: string, startTime: string,
    rowActions: seq<RowAction>, statusClass: string, appointmentDate: string, patientContact: string)

  /** The check-in modal's fields, taken together. */
  datatype CheckInModal = CheckInModal(
    isOpen: bool, appointmentId: string, patientName: string, appointmentTime: string,
    reasonForVisit: string, arrivalTime: string)

  /** Everything the component does that leaves it. A check-out call sends
      only the id; `patientName` is the name its continuation captured for
      the toast. */
  datatype Effect =
    | Notify(toast: Toast)
    | CheckInPatient(appointmentId: string, arrivalTime: string)
    | CheckOutPatient(appointmentId: string, patientName: string)
    | RefreshAppointments

  const Scheduled := "Scheduled"
  const CheckInAction := RowAction("Check-In", "check_in")
  const CheckOutAction := RowAction("Check-Out", "check_out")
  const DefaultClass := "slds-text-color_default"
  const SuccessClass := "slds-text-color_success slds-text-heading_small"

  const TodayFilter := "TODAY"
  const CustomDateFilter := "CUSTOM_DATE"
  const CustomRangeFilter := "CUSTOM_RANGE"

  const LoadFailedTitle := "Error Loading Data"
  const LoadFailed := "Could not fetch appointments."
  const CheckInFailedTitle := "Check-In Failed"
  const CheckOutFailedTitle := "Check-Out Failed"

  /** The single action a row offers: check-in while scheduled, check-out
      in every other status. */
  function RowActionsFor(status: string): seq<RowAction> {
    if status == Scheduled then [CheckInAction] else [CheckOutAction]
  }

  /** The status cell's CSS class. */
  function StatusClassFor(status: string): (r: string)
    ensures r == DefaultClass <==> status == Scheduled
    ensures status != Scheduled ==> r == SuccessClass
  {
    if status == Scheduled then DefaultClass else SuccessClass
  }

  /** A row offers check-in exactly when it is shown in the default colour. */
  lemma CheckInRowsAreTheDefaultColoured(status: string)
    ensures RowActionsFor(status) == [CheckInAction] <==> StatusClassFor(status) == DefaultClass
  {
  }

  /** One record of `wiredAppointments`' `map`: the row keeps the record, and
      it offers check-in exactly when it is shown in the default colour, which
      is exactly when the record is scheduled. */
  function Decorate(a: Appointment): (row: Row)
    ensures row.record == a
    ensures row.rowActions == [CheckInAction] <==> row.statusClass == DefaultClass
    ensures row.rowActions == [CheckInAction] <==> a.status == Scheduled
  {
    Row(a, a.patient.name, a.doctor.name, a.startTime,
        RowActionsFor(a.status), StatusClassFor(a.status), a.startTime, a.patient.contactNumber)
  }

  /** The table built from the records: one row per record, in order. */
  function DecorateAll(appointments: seq<Appointment>): (rows: seq<Row>)
    ensures |rows| == |appointments|
    ensures forall i :: 0 <= i < |rows| ==> rows[i].record == appointments[i]
    ensures forall i :: 0 <= i < |rows| ==> rows[i].startTime == rows[i].appointmentDate == appointments[i].startTime
    ensures forall i :: 0 <= i < |rows| ==>
      rows[i].patientName == appointments[i].patient.name && rows[i].doctorName == appointments[i].doctor.name
      && rows[i].patientContact == appointments[i].patient.contactNumber
  {
    Map(appointments, Decorate)
  }

  /** In the table, the `i`-th row offers check-in exactly when the `i`-th
      record is scheduled, and check-out otherwise. */
  lemma TableActionsFollowStatus(appointments: seq<Appointment>, i: nat)
    requires i < |appointments|
    ensures |DecorateAll(appointments)| == |appointments|
    ensures appointments[i].status == Scheduled ==> DecorateAll(appointments)[i].rowActions == [CheckInAction]
    ensures appointments[i].status != Scheduled ==> DecorateAll(appointments)[i].rowActions == [CheckOutAction]
  {
    assert DecorateAll(appointments)[i] == Decorate(appointments[i]);
  }

  /** The check-in modal as a check-in row action fills it. */
  function CheckInModalFor(row: Row, now: string): CheckInModal {
    CheckInModal(true, row.record.id, row.patientName, row.startTime, row.record.reasonForVisit, now)
  }

  /** Checking in from the `i`-th table row puts the `i`-th record's id,
      patient, start time and reason into the modal. */
  lemma CheckInFromTableCopiesTheRecord(appointments: seq<Appointment>, i: nat, now: string)
    requires i < |appointments|
    ensures |DecorateAll(appointments)| == |appointments|
    ensures CheckInModalFor(DecorateAll(appointments)[i], now)
      == CheckInModal(true, appointments[i].id, appointments[i].patient.name,
                      appointments[i].startTime, appointments[i].reasonForVisit, now)
  {
    assert DecorateAll(appointments)[i] == Decorate(appointments[i]);
  }

  /** The toast of a failed check-in or check-out reads `error.body.message`
      with no fallback. With no `body` the handler itself raises and nothing
      is shown; with a body but no message the toast has no message text. */
  function FailureToasts(title: string, body: ErrorBody): (r: seq<Effect>)
    ensures |r| <= 1
    ensures r != [] <==> body.Body?
    ensures r != [] ==> r[0].Notify? && r[0].toast.title == title && r[0].toast.variant == "error"
    ensures body.Body? && body.message.Some? ==> r[0].toast.message == body.message.value
    ensures body.Body? && body.message.None? ==> r[0].toast.message == ""
  {
    match body
    case Body(Some(m)) => [Notify(Toast(title, m, "error"))]
    case Body(None) => [Notify(Toast(title, "", "error"))]
    case NoBody => []
  }

  class CheckInBoard {
    var searchTerm: string
    var appointments: seq<Row>
    var filterType: string
    var startDate: string
    var endDate: string

    var isModalOpen: bool
    var selectedAppointmentId: string
    var selectedPatientName: string
    var selectedAppointmentTime: string
    var selectedReasonForVisit: string
    var arrivalTime: string

    /** The value the pending debounce timer will copy into `searchTerm`. */
    var delayTimeout: Option<string>

    var effects: seq<Effect>

    function Modal(): CheckInModal
      reads this
    {
      CheckInModal(isModalOpen, selectedAppointmentId, selectedPatientName,
                   selectedAppointmentTime, selectedReasonForVisit, arrivalTime)
    }

    /** `today` is the current date and `now` the current local time, as the
        component formats them. */
    constructor (today: string, now: string)
      ensures searchTerm == "" && appointments == [] && filterType == TodayFilter
      ensures startDate == today && endDate == today
      ensures Modal() == CheckInModal(false, "", "", "", "", now)
      ensures delayTimeout == None && effects == []
    {
      searchTerm, appointments, filterType := "", [], TodayFilter;
      startDate, endDate := today, today;
      isModalOpen := false;
      selectedAppointmentId, selectedPatientName := "", "";
      selectedAppointmentTime, selectedReasonForVisit := "", "";
      arrivalTime := now;
      delayTimeout := None;
      effects := [];
    }

    /** `wiredAppointments`: `result` is None while the wire has provided
        neither data nor an error. */
    method WiredAppointments(result: Option<Outcome<seq<Appointment>>>)
      modifies this`appointments, this`effects
      ensures result.Some? && result.value.Success? ==>
        appointments == DecorateAll(result.value.value) && effects == old(effects)
      ensures result.Some? && result.value.Failure? ==>
        appointments == old(appointments) && effects == old(effects) + [Notify(Toast(LoadFailedTitle, LoadFailed, "error"))]
      ensures result.None? ==> appointments == old(appointments) && effects == old(effects)
    {
      if result.Some? {
        match result.value
        case Success(records) =>
          appointments := DecorateAll(records);
        case Failure(_) =>
          effects := effects + [Notify(Toast(LoadFailedTitle, LoadFailed, "error"))];
      }
    }

    /** `showCustomDateInputs`. */
    function ShowCustomDateInputs(): bool
      reads this
    {
      filterType == CustomDateFilter || filterType == CustomRangeFilter
    }

    /** `isCustomRangeFilter`: a custom range always shows the date inputs. */
    function IsCustomRangeFilter(): (r: bool)
      reads this
      ensures r ==> ShowCustomDateInputs()
      ensures r <==> filterType == CustomRangeFilter
    {
      filterType == CustomRangeFilter
    }

    /** `handleFilterClick`: the clicked button's name becomes the filter. */
    method HandleFilterClick(name: string)
      modifies this`filterType
      ensures filterType == name
    {
      filterType := name;
    }

    /** `handleDateChange`: only the named date changes; any other name
        changes nothing. */
    method HandleDateChange(field: string, value: string)
      modifies this`startDate, this`endDate
      ensures field == "startDate" ==> startDate == value && endDate == old(endDate)
      ensures field == "endDate" ==> endDate == value && startDate == old(startDate)
      ensures field != "startDate" && field != "endDate" ==>
        startDate == old(startDate) && endDate == old(endDate)
    {
      if field == "startDate" {
        startDate := value;
      } else if field == "endDate" {
        endDate := value;
      }
    }

    /** `handleSearch`: the pending timer is cancelled and replaced by one
        carrying this keystroke's value; the search term itself waits. */
    method HandleSearch(value: string)
      modifies this`delayTimeout
      ensures delayTimeout == Some(value)
    {
      delayTimeout := Some(value);
    }

    /** The 300 ms debounce timer fires: the value it carries becomes the
        search term. With no timer pending nothing happens. */
    method SearchTimerFires()
      modifies this`delayTimeout, this`searchTerm
      ensures delayTimeout == None
      ensures old(delayTimeout).Some? ==> searchTerm == old(delayTimeout).value
      ensures old(delayTimeout).None? ==> searchTerm == old(searchTerm)
    {
      if delayTimeout.Some? {
        searchTerm := delayTimeout.value;
        delayTimeout := None;
      }
    }

    /** `handleRowAction`; `now` is the current local time. Check-in copies
        the row into the modal and opens it; check-out leaves the modal alone
        and issues one check-out; any other action does nothing. */
    method HandleRowAction(actionName: string, row: Row, now: string)
      modifies this`isModalOpen, this`selectedAppointmentId, this`selectedPatientName,
               this`selectedAppointmentTime, this`selectedReasonForVisit, this`arrivalTime, this`effects
      ensures actionName == "check_in" ==>
        Modal() == CheckInModalFor(row, now) && effects == old(effects)
      ensures actionName == "check_out" ==>
        Modal() == old(Modal()) && effects == old(effects) + [CheckOutPatient(row.record.id, row.patientName)]
      ensures actionName != "check_in" && actionName != "check_out" ==>
        Modal() == old(Modal()) && effects == old(effects)
    {
      if actionName == "check_in" {
        selectedAppointmentId := row.record.id;
        selectedPatientName := row.patientName;
        selectedAppointmentTime := row.startTime;
        selectedReasonForVisit := row.record.reasonForVisit;
        arrivalTime := now;
        isModalOpen := true;
      } else if actionName == "check_out" {
        ConfirmCheckOut(row.record.id, row.patientName);
      }
    }

    /** `closeModal`. */
    method CloseModal()
      modifies this`isModalOpen
      ensures !isModalOpen
    {
      isModalOpen := false;
    }

    /** `handleTimeChange`: the arrival time typed into the modal. */
    method HandleTimeChange(value: string)
      modifies this`arrivalTime
      ensures arrivalTime == value
    {
      arrivalTime := value;
    }

    /** `confirmCheckIn`, up to the request: the modal closes before the call
        is made, so it is closed whatever the outcome. */
    method ConfirmCheckIn()
      modifies this`isModalOpen, this`effects
      ensures !isModalOpen
      ensures effects == old(effects) + [CheckInPatient(selectedAppointmentId, arrivalTime)]
    {
      CloseModal();
      effects := effects + [CheckInPatient(selectedAppointmentId, arrivalTime)];
    }

    /** The check-in settles. The success toast names the patient selected
        when the answer arrives; the modal is not touched. */
    method CheckInSettled(result: Outcome<()>)
      requires exists e :: e in effects && e.CheckInPatient?
      modifies this`effects
      ensures result.Success? ==>
        effects == old(effects) + [Notify(SuccessToast(selectedPatientName + " has been checked in.")), RefreshAppointments]
      ensures result.Failure? ==> effects == old(effects) + FailureToasts(CheckInFailedTitle, result.body)
    {
      match result
      case Success(_) =>
        effects := effects + [Notify(SuccessToast(selectedPatientName + " has been checked in."))];
        effects := effects + [RefreshAppointments];
      case Failure(body) =>
        effects := effects + FailureToasts(CheckInFailedTitle, body);
    }

    /** `confirmCheckOut`, up to the request. */
    method ConfirmCheckOut(appointmentId: string, patientName: string)
      modifies this`effects
      ensures effects == old(effects) + [CheckOutPatient(appointmentId, patientName)]
    {
      effects := effects + [CheckOutPatient(appointmentId, patientName)];
    }

    /** An issued check-out settles. The success toast names the patient the
        call captured, whatever is selected now. */
    method CheckOutSettled(request: Effect, result: Outcome<()>)
      requires request.CheckOutPatient? && request in effects
      modifies this`effects
      ensures result.Success? ==>
        effects == old(effects) + [Notify(SuccessToast(request.patientName + " has been checked out.")), RefreshAppointments]
      ensures result.Failure? ==> effects == old(effects) + FailureToasts(CheckOutFailedTitle, result.body)
    {
      match result
      case Success(_) =>
        effects := effects + [Notify(SuccessToast(request.patientName + " has been checked out."))];
        effects := effects + [RefreshAppointments];
      case Failure(body) =>
        effects := effects + FailureToasts(CheckOutFailedTitle, body);
    }
  }

  /** Typing "a", "ab", "abc" before the timer fires sets the search term once,
      to "abc"; a second firing changes nothing. */
  method ScenarioDebounceCollapse()
  {
    var board := new CheckInBoard("2026-01-01", "2026-01-01T09:00:00");
    board.HandleSearch("a");
    board.HandleSearch("ab");
    board.HandleSearch("abc");
    assert board.searchTerm == "";
    board.SearchTimerFires();
    assert board.searchTerm == "abc";
    board.SearchTimerFires();
    assert board.searchTerm == "abc";
  }

  /** A check-out from a table row thanks the patient of that row, and a
      failure whose body has no message still shows the failure toast. */
  method ScenarioCheckOutFromRow(a: Appointment)
  {
    var board := new CheckInBoard("2026-01-01", "2026-01-01T09:00:00");
    var row := Decorate(a);
    board.HandleRowAction("check_out", row, "2026-01-01T09:05:00");
    var request := board.effects[0];
    board.CheckOutSettled(request, Success(()));
    assert board.effects[1] == Notify(SuccessToast(a.patient.name + " has been checked out."));
    board.CheckOutSettled(request, Failure(Body(None)));
    assert board.effects[3] == Notify(Toast(CheckOutFailedTitle, "", "error"));
    board.CheckOutSettled(request, Failure(NoBody));
    assert |board.effects| == 4;
  }
}
