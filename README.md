# HospitalOPD front-desk components, modelled in Dafny

This project models the synchronous logic of three Lightning Web Components
of a clinic front desk:

- **Appointment scheduler** (`AppointmentScheduler.Scheduler`): the
  department → doctor filter cascade, the new-appointment modal with its
  debounced patient search and booking validation, the detail modal (status
  edit, save, delete), the drag-to-reschedule path with revert on failure,
  and the loading flag.
- **Patient registration wizard** (`PatientRegistrationForm.RegistrationForm`):
  the three-step machine `'1'` → `'2'` → `'3'`, the per-step validator and
  submission with reset.
- **Patient check-in board** (`PatientCheckIn.CheckInBoard`): the row
  decoration (one action and one CSS class per status), the filter getters,
  the date and search handlers, the row-action dispatch and the check-in /
  check-out calls.

Each component is a class whose fields are the component's own instance
fields. Each handler is a method whose `modifies` clause names the fields it
may change and whose `ensures` states the new values. Everything a component
does to the outside world is appended to an ordered `effects` log. That log
holds toasts, Apex calls, `calendar.refetchEvents()`, `info.revert()` and
`refreshApex`. An Apex call is issued by its handler. Its result comes back
later through a separate `...Settled(result)` method, and `result` is an
`Outcome`: `Success(value)` or `Failure(body)`, where the error's `body` is
missing (`NoBody`) or present with an optional `message`. A debounce timer is a pending-timer field. Its firing is the
method `SearchTimerFires`. The current day, the current time, the answer to
the delete confirmation and each input's validity are parameters.

`Runtime` holds the JavaScript semantics the components depend on:

- truthiness of strings;
- `error?.body?.message || fallback`;
- `Array.prototype.map`;
- `length`, which counts UTF-16 code units;
- `String.prototype.trim`, with the whitespace set of ECMA-262.

Behaviour of the code that the model keeps, though a reader might not expect it:

- A failed doctor load after a department change still clears the doctor
  selection. The option list is left as it was.
- The scheduler's search timer reads `patientSearchTerm` when it fires.
  `closePatientModal` clears the term without cancelling the timer, so closing
  the modal during the 300 ms window searches for the empty term
  (`ScenarioCloseWithPendingSearch`).
- `confirmAppointment` with a patient and a reason but no slot sets
  `isLoading` and then raises on `this.selectedSlot.start`. No call is made
  and the flag stays set.
- `handleSlotSelect` checks for a doctor only when the slot is taken. A
  department change afterwards clears `selectedDoctorId`, and
  `confirmAppointment` then books with the empty doctor id
  (`ScenarioDoctorClearedAfterSlot`).
- The check-in success toast names `selectedPatientName` as it is when the
  answer arrives, not when the call was made.
- A check-in or check-out failure whose error has no `body` raises inside the
  `catch`, so no toast is shown. An error with a `body` but no `message`
  still shows the failure toast, with no message text.
- The check-out success toast names the patient of the row the check-out
  came from, because `confirmCheckOut` captures the name.

Ordering and concurrency in the components:

- The scheduler has no last-request-wins counter for calendar fetches.
- It has no per-appointment mutation lock.
- Every completion is applied to the state as it is when it arrives.
- The delete confirmation is a blocking `confirm`, modelled as a boolean parameter.

## Model

| member | source | states |
|---|---|---|
| Runtime.ErrorText | force-app/main/default/lwc/appointmentScheduler/appointmentScheduler.js:205 | the shown text is the backend message when it is non-empty, else the fallback; never empty when the fallback is not |
| Runtime.Map | force-app/main/default/lwc/patientCheckIn/patientCheckIn.js:61 | `map` keeps length and order and transforms each element |
| Runtime.Utf16Length | force-app/main/default/lwc/patientRegistrationForm/patientRegistrationForm.js:97 | JavaScript `length` lies between the number of characters and twice that |
| Runtime.Utf16LengthOfBmp | force-app/main/default/lwc/patientRegistrationForm/patientRegistrationForm.js:97 | for Basic Multilingual Plane text, `length` is the character count |
| Runtime.TrimStart | force-app/main/default/lwc/patientRegistrationForm/patientRegistrationForm.js:122 | leading trim returns a suffix; everything it drops is whitespace; the result does not start with whitespace |
| Runtime.TrimEnd | force-app/main/default/lwc/patientRegistrationForm/patientRegistrationForm.js:122 | trailing trim returns a prefix; everything it drops is whitespace; the result does not end with whitespace |
| Runtime.IsBlank | force-app/main/default/lwc/patientRegistrationForm/patientRegistrationForm.js:127 | `s.trim() === ''` holds exactly when every character is whitespace |
| AppointmentScheduler.DoctorOptions | force-app/main/default/lwc/appointmentScheduler/appointmentScheduler.js:134-135 | the options are the "All Doctors" sentinel first, then one `{Name, Id}` choice per doctor in order |
| AppointmentScheduler.DepartmentOptions | force-app/main/default/lwc/appointmentScheduler/appointmentScheduler.js:63-64 | the options are the "All Departments" sentinel first, then one choice per department in order |
| AppointmentScheduler.DoctorOptionsOfferExactlyTheLoadedDoctors | force-app/main/default/lwc/appointmentScheduler/appointmentScheduler.js:133-136 | a non-empty value is offered exactly when some loaded doctor has that id |
| AppointmentScheduler.SearchTermOfOneCharacter | force-app/main/default/lwc/appointmentScheduler/appointmentScheduler.js:159 | a one-character term qualifies for search exactly when it lies outside the BMP, since `length` counts UTF-16 units |
| AppointmentScheduler.BookingError | force-app/main/default/lwc/appointmentScheduler/appointmentScheduler.js:180-189 | booking goes ahead exactly when a patient is selected and a reason is given; a missing patient is reported first |
| AppointmentScheduler.BookingWithoutReasonIsRefused | force-app/main/default/lwc/appointmentScheduler/appointmentScheduler.js:186-189 | a patient with an empty reason is refused with the reason message |
| AppointmentScheduler.SnapshotIsLossless | force-app/main/default/lwc/appointmentScheduler/appointmentScheduler.js:237-246 | over the fields the model keeps of a calendar event, the copy is injective: two such events have the same snapshot exactly when they are the same event |
| AppointmentScheduler.StatusEditKeepsTheEvent | force-app/main/default/lwc/appointmentScheduler/appointmentScheduler.js:237-262 | editing the snapshot's status gives the snapshot of the same event with that status, so the save sends the clicked event's id |
| AppointmentScheduler.Scheduler.constructor | force-app/main/default/lwc/appointmentScheduler/appointmentScheduler.js:17-38 | the initial state: loading, empty filters and options, both modals closed, empty draft |
| AppointmentScheduler.Scheduler.WiredDoctors | force-app/main/default/lwc/appointmentScheduler/appointmentScheduler.js:50-58 | on data the doctor options get the sentinel first; on error they keep their value and one error toast is shown |
| AppointmentScheduler.Scheduler.WiredDepartments | force-app/main/default/lwc/appointmentScheduler/appointmentScheduler.js:60-68 | on data the department options get the sentinel first; on error they keep their value and one error toast is shown |
| AppointmentScheduler.Scheduler.HandleDepartmentChange | force-app/main/default/lwc/appointmentScheduler/appointmentScheduler.js:124-130 | the doctor id is cleared at once; the department's doctors, or all doctors for `''`, are requested; no refetch |
| AppointmentScheduler.Scheduler.DepartmentDoctorsSettled | force-app/main/default/lwc/appointmentScheduler/appointmentScheduler.js:132-137 | success replaces the options with the sentinel first; failure keeps them and shows one error toast |
| AppointmentScheduler.Scheduler.HandleDoctorChange | force-app/main/default/lwc/appointmentScheduler/appointmentScheduler.js:140-143 | the doctor is selected and the calendar is refetched once |
| AppointmentScheduler.Scheduler.HandleSlotSelect | force-app/main/default/lwc/appointmentScheduler/appointmentScheduler.js:146-153 | with no doctor, only an info toast and the slot and modal unchanged; otherwise the slot is stored and the modal opens |
| AppointmentScheduler.Scheduler.HandlePatientSearch | force-app/main/default/lwc/appointmentScheduler/appointmentScheduler.js:155-169 | the timer is always cancelled; a qualifying term schedules one search; any other term clears the candidates |
| AppointmentScheduler.Scheduler.SearchTimerFires | force-app/main/default/lwc/appointmentScheduler/appointmentScheduler.js:160-161 | a pending timer issues one search for the term held when it fires; with none pending nothing happens |
| AppointmentScheduler.Scheduler.PatientSearchSettled | force-app/main/default/lwc/appointmentScheduler/appointmentScheduler.js:162-165 | success replaces the candidates wholesale with `Name (ID: code)` choices; failure keeps them and shows one error toast |
| AppointmentScheduler.Scheduler.HandlePatientSelect | force-app/main/default/lwc/appointmentScheduler/appointmentScheduler.js:172-174 | the patient is selected |
| AppointmentScheduler.Scheduler.HandleReasonChange | force-app/main/default/lwc/appointmentScheduler/appointmentScheduler.js:176-178 | the reason is stored |
| AppointmentScheduler.Scheduler.ConfirmAppointment | force-app/main/default/lwc/appointmentScheduler/appointmentScheduler.js:180-198 | a refused booking shows one error toast and calls nothing; an accepted one sets loading and books slot, doctor, patient and reason |
| AppointmentScheduler.Scheduler.BookingSettled | force-app/main/default/lwc/appointmentScheduler/appointmentScheduler.js:199-207 | success closes and empties the draft and refetches; failure keeps the draft and modal and shows the message or fallback; loading is released either way |
| AppointmentScheduler.Scheduler.ClosePatientModal | force-app/main/default/lwc/appointmentScheduler/appointmentScheduler.js:210-217 | the modal closes; term, candidates, patient, slot and reason are reset |
| AppointmentScheduler.Scheduler.HandleEventDrop | force-app/main/default/lwc/appointmentScheduler/appointmentScheduler.js:220-226 | loading is set and the new times are sent |
| AppointmentScheduler.Scheduler.DropSettled | force-app/main/default/lwc/appointmentScheduler/appointmentScheduler.js:227-232 | only an issued reschedule settles; success never reverts; each failed settlement reverts that event once, then toasts the message or fallback; loading is released either way |
| AppointmentScheduler.Scheduler.HandleEventClick | force-app/main/default/lwc/appointmentScheduler/appointmentScheduler.js:235-248 | the event is snapshotted and the detail modal opens |
| AppointmentScheduler.Scheduler.CloseModal | force-app/main/default/lwc/appointmentScheduler/appointmentScheduler.js:250-252 | the detail modal closes |
| AppointmentScheduler.Scheduler.HandleStatusChange | force-app/main/default/lwc/appointmentScheduler/appointmentScheduler.js:254-256 | only the snapshot's status changes |
| AppointmentScheduler.Scheduler.HandleSave | force-app/main/default/lwc/appointmentScheduler/appointmentScheduler.js:258-263 | loading is set and the snapshot's status is sent for its id |
| AppointmentScheduler.Scheduler.SaveSettled | force-app/main/default/lwc/appointmentScheduler/appointmentScheduler.js:264-272 | success refetches and closes the modal; failure keeps it and shows the message or fallback; loading is released either way |
| AppointmentScheduler.Scheduler.HandleDelete | force-app/main/default/lwc/appointmentScheduler/appointmentScheduler.js:275-278 | only a confirmed delete sets loading and calls the backend |
| AppointmentScheduler.Scheduler.DeleteSettled | force-app/main/default/lwc/appointmentScheduler/appointmentScheduler.js:279-285 | success refetches and closes the modal; failure keeps it and shows the message or fallback; loading is released either way |
| PatientRegistrationForm.WhitespaceIsNotFilled | force-app/main/default/lwc/patientRegistrationForm/patientRegistrationForm.js:122-123 | text made only of whitespace is not a filled field |
| PatientRegistrationForm.FirstViolation | force-app/main/default/lwc/patientRegistrationForm/patientRegistrationForm.js:89-116 | rules checked in order pass exactly when all hold; otherwise the message is that of the first broken rule |
| PatientRegistrationForm.ValidationVerdict | force-app/main/default/lwc/patientRegistrationForm/patientRegistrationForm.js:83-86 | any invalid input rejects on every step; step 3 with valid inputs always passes |
| PatientRegistrationForm.PatientStepPassesIffComplete | force-app/main/default/lwc/patientRegistrationForm/patientRegistrationForm.js:89-116 | step 1 passes exactly when name, birth date and contact are present, the contact has length 10, the birth date is not after today and a gender is given |
| PatientRegistrationForm.PatientStepReportsFirstBrokenRule | force-app/main/default/lwc/patientRegistrationForm/patientRegistrationForm.js:96-100 | with all details present, a wrong contact length is reported whatever follows |
| PatientRegistrationForm.InsuranceStepPassesIff | force-app/main/default/lwc/patientRegistrationForm/patientRegistrationForm.js:120-136 | step 2 passes exactly when no insurance field is filled, or provider and policy number are both filled |
| PatientRegistrationForm.InsuranceStepReportsProviderFirst | force-app/main/default/lwc/patientRegistrationForm/patientRegistrationForm.js:127-130 | with some insurance filled, a missing provider is reported before the policy number |
| PatientRegistrationForm.BlankInsurancePasses | force-app/main/default/lwc/patientRegistrationForm/patientRegistrationForm.js:121-124 | a blank-after-trim provider and policy number, with no date and no checkbox, count as no insurance |
| PatientRegistrationForm.NextStep | force-app/main/default/lwc/patientRegistrationForm/patientRegistrationForm.js:65-66 | Next stays within the three steps, rises by one and leaves `'3'` where it is |
| PatientRegistrationForm.PreviousStep | force-app/main/default/lwc/patientRegistrationForm/patientRegistrationForm.js:68-71 | Back stays within the three steps, falls by one and leaves `'1'` where it is |
| PatientRegistrationForm.BackUndoesNext | force-app/main/default/lwc/patientRegistrationForm/patientRegistrationForm.js:63-71 | Back undoes Next below step 3, and Next undoes Back above step 1 |
| PatientRegistrationForm.WithFieldChangesOnlyThatKey | force-app/main/default/lwc/patientRegistrationForm/patientRegistrationForm.js:51-60 | an input sets its own key in its own section and leaves every other key and section as it was |
| PatientRegistrationForm.AllInputsValid | force-app/main/default/lwc/patientRegistrationForm/patientRegistrationForm.js:77-81 | the `forEach` result is true exactly when every input is valid |
| PatientRegistrationForm.RegistrationForm.constructor | force-app/main/default/lwc/patientRegistrationForm/patientRegistrationForm.js:7-41 | the wizard starts on step `'1'` with the three empty sections |
| PatientRegistrationForm.RegistrationForm.HandleChange | force-app/main/default/lwc/patientRegistrationForm/patientRegistrationForm.js:51-55 | the named section is rebuilt with the named key replaced |
| PatientRegistrationForm.RegistrationForm.HandleCheckbox | force-app/main/default/lwc/patientRegistrationForm/patientRegistrationForm.js:56-60 | the named section is rebuilt with the named key set to the checkbox state |
| PatientRegistrationForm.RegistrationForm.ValidateCurrentStep | force-app/main/default/lwc/patientRegistrationForm/patientRegistrationForm.js:74-140 | the result is true exactly when the verdict passes; a rejection shows exactly one error toast carrying its message |
| PatientRegistrationForm.RegistrationForm.HandleNext | force-app/main/default/lwc/patientRegistrationForm/patientRegistrationForm.js:63-67 | the step moves to the next step only when validation passes |
| PatientRegistrationForm.RegistrationForm.HandleBack | force-app/main/default/lwc/patientRegistrationForm/patientRegistrationForm.js:68-71 | the step moves to the previous step |
| PatientRegistrationForm.RegistrationForm.HandleSubmit | force-app/main/default/lwc/patientRegistrationForm/patientRegistrationForm.js:143-152 | nothing is sent unless validation passes; then the three sections are sent |
| PatientRegistrationForm.RegistrationForm.RegistrationSettled | force-app/main/default/lwc/patientRegistrationForm/patientRegistrationForm.js:153-160 | success shows the new id and resets; failure keeps the data and shows the message or `'An error occurred.'` |
| PatientRegistrationForm.RegistrationForm.ResetAll | force-app/main/default/lwc/patientRegistrationForm/patientRegistrationForm.js:167-171 | back to step `'1'` with the three initial sections |
| PatientCheckIn.StatusClassFor | force-app/main/default/lwc/patientCheckIn/patientCheckIn.js:66-68 | the class is the default one exactly for `'Scheduled'`, and the success class otherwise |
| PatientCheckIn.CheckInRowsAreTheDefaultColoured | force-app/main/default/lwc/patientCheckIn/patientCheckIn.js:62-68 | a row offers check-in exactly when it has the default class |
| PatientCheckIn.Decorate | force-app/main/default/lwc/patientCheckIn/patientCheckIn.js:62-79 | a row keeps its record and offers check-in exactly when it has the default class, which is exactly when the record is scheduled |
| PatientCheckIn.CheckInFromTableCopiesTheRecord | force-app/main/default/lwc/patientCheckIn/patientCheckIn.js:70-79 | checking in from the i-th row fills the modal with the i-th record's id, patient name, start time and reason |
| PatientCheckIn.DecorateAll | force-app/main/default/lwc/patientCheckIn/patientCheckIn.js:61-80 | one row per record, with the same length and order, `StartTime == AppointmentDate == Start_Time__c`, and the patient name, doctor name and contact copied from the lookups |
| PatientCheckIn.TableActionsFollowStatus | force-app/main/default/lwc/patientCheckIn/patientCheckIn.js:61-68 | the i-th row offers check-in exactly when the i-th record is scheduled |
| PatientCheckIn.FailureToasts | force-app/main/default/lwc/patientCheckIn/patientCheckIn.js:159-161 | at most one toast, shown exactly when the error has a body, under the failure title and with the backend's message when there is one |
| PatientCheckIn.CheckInBoard.constructor | force-app/main/default/lwc/patientCheckIn/patientCheckIn.js:34-49 | the initial state: `TODAY` filter, both dates today, closed modal, no timer |
| PatientCheckIn.CheckInBoard.WiredAppointments | force-app/main/default/lwc/patientCheckIn/patientCheckIn.js:58-85 | on data the table is the decorated records; on error it is kept and one error toast is shown |
| PatientCheckIn.CheckInBoard.IsCustomRangeFilter | force-app/main/default/lwc/patientCheckIn/patientCheckIn.js:88-94 | true exactly for `CUSTOM_RANGE`, and it implies `showCustomDateInputs` |
| PatientCheckIn.CheckInBoard.HandleFilterClick | force-app/main/default/lwc/patientCheckIn/patientCheckIn.js:97-99 | the clicked name becomes the filter |
| PatientCheckIn.CheckInBoard.HandleDateChange | force-app/main/default/lwc/patientCheckIn/patientCheckIn.js:107-114 | only `startDate` or only `endDate` changes; any other name changes nothing |
| PatientCheckIn.CheckInBoard.HandleSearch | force-app/main/default/lwc/patientCheckIn/patientCheckIn.js:116-121 | the pending timer is replaced by one carrying this keystroke's value; the search term is untouched |
| PatientCheckIn.CheckInBoard.SearchTimerFires | force-app/main/default/lwc/patientCheckIn/patientCheckIn.js:119-121 | the search term becomes the pending timer's value and only then |
| PatientCheckIn.CheckInBoard.HandleRowAction | force-app/main/default/lwc/patientCheckIn/patientCheckIn.js:124-138 | check-in copies id, name, time and reason and opens the modal; check-out leaves the modal and issues one check-out carrying the row's patient name; anything else changes nothing |
| PatientCheckIn.CheckInBoard.CloseModal | force-app/main/default/lwc/patientCheckIn/patientCheckIn.js:141-143 | the modal closes |
| PatientCheckIn.CheckInBoard.HandleTimeChange | force-app/main/default/lwc/patientCheckIn/patientCheckIn.js:145-147 | the arrival time is stored |
| PatientCheckIn.CheckInBoard.ConfirmCheckIn | force-app/main/default/lwc/patientCheckIn/patientCheckIn.js:149-154 | the modal is closed before the check-in is issued |
| PatientCheckIn.CheckInBoard.CheckInSettled | force-app/main/default/lwc/patientCheckIn/patientCheckIn.js:155-161 | success toasts the currently selected name and refreshes; failure appends `FailureToasts` of the error body; the modal stays closed |
| PatientCheckIn.CheckInBoard.ConfirmCheckOut | force-app/main/default/lwc/patientCheckIn/patientCheckIn.js:165-166 | one check-out is issued for the appointment, capturing the patient name for its toast |
| PatientCheckIn.CheckInBoard.CheckOutSettled | force-app/main/default/lwc/patientCheckIn/patientCheckIn.js:167-173 | success toasts the name the issued call captured and refreshes; failure appends `FailureToasts` of the error body |

## Left out

- FullCalendar loading and construction (`renderedCallback`, `initializeCalendar`): they are library and DOM set-up. The model assumes the calendar has been constructed. Before it is, `handleDoctorChange` raises after setting the doctor and refetches nothing. The success paths of booking, save and delete would then raise inside `.then`, so a fallback error toast follows the success toast and the modal stays open.
- Each `...Settled` method requires that a call of its kind has been issued (it is in `effects`), but it does not use that call up: the model does not keep a set of pending calls, so one issued call can be settled more than once.
- The calendar's event source `loadEvents`: it is RPC plumbing into the widget. Its `isLoading` handling is left out with it, so the loading flag stays set from construction until a mutation settles.
- `statusOptions`, `genderOptions` and the `isStep…` / `isFirstStep` / `isLastStep` getters: they are constant lists and step comparisons, which the model writes inline.
- DOM work: `querySelectorAll`, `reportValidity` display, the button-variant styling in `handleFilterClick`, and the clearing of input values in `resetAll`. Each input's `checkValidity()` answer is a parameter instead.
- Timers: the 300 ms delay is not modelled. A timer fires when `SearchTimerFires` is called.
- Wire re-provisioning: when `searchTerm`, `filterType`, `startDate` or `endDate` change, the framework fetches again, and the model does not show that. The new data arrives through `WiredAppointments`.
- `refreshApex` is only recorded as an effect. A failed refresh would reach the check-in and check-out `catch`, and that path is not modelled.
- `console.error` in `wiredAppointments`.
- Date and time computation is left out. `arrivalTime`'s local-time formula, the check-in board's initial dates and `today` (with its `setHours` normalisation) are parameters. Scheduler instants and registration dates are abstract integers. The check-in board keeps the backend's ISO text.
- AppointmentScheduler.SnapshotIsLossless: the calendar event keeps only the eight fields the snapshot copies. `allDay` and the extended properties other than patient, doctor, doctor name and status (such as the `eventEnd` kept by the spread in `loadEvents`) are not modelled, so in the component two different events can share a snapshot.
- PatientRegistrationForm.IsFilled: a checked checkbox bound to the provider or policy key would make `trim()` raise a TypeError; the model counts it as filled, because every input the wizard binds to those keys is text.
- PatientRegistrationForm.IsAfter: `new Date(v)` of text that is not one of the model's date values is treated as an invalid date, which never compares after today. Date parsing is not modelled.
- PatientRegistrationForm.RegistrationForm.HandleChange: `data-section` values other than the three sections are not modelled.
- PatientCheckIn.FailureToasts: a toast whose message is `undefined` (an error body without `message`, or a `body` that is an array) is modelled with the empty message text.
- PatientCheckIn.Decorate: a record with an empty `Patient__r` or `Doctor__r` lookup makes the source raise inside `map`; the model assumes both lookups are present.
- force-app/main/default/lwc/patientDoctorView/patientDoctorView.js is not part of this model: it only stores wired data or an error.
- The Apex controllers are not part of this model. Each call's answer is an `Outcome` parameter.
