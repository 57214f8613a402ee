/** The three-step patient registration wizard: step '1' collects the patient,
    step '2' the optional insurance, step '3' the optional medical history.
    Each section is a record whose keys the inputs name, so a section is a map
    from key to value. Moving forward and submitting are gated on the step's
    validation; a successful registration resets the wizard. */
module PatientRegistrationForm {
  import opened Runtime

  /** A field value: the text of an input, a date (an abstract ordered day),
      the state of a checkbox, or `null`. */
  datatype Value = Text(text: string) | Day(day: int) | Flag(checked: bool) | Null

  /** One section of the form, `{ key: value, ... }`. */
  type Record = map<string, Value>

  /** The `data-section` an input belongs to. */
  datatype Section = PatientSection | InsuranceSection | MedicalHistorySection

  /** The three sections, as `handleSubmit` sends them. */
  datatype Sections = Sections(patient: Record, insurance: Record, medicalHistory: Record)

  /** A validation rule of a step and the message shown when it is broken. */
  datatype Rule = Rule(holds: bool, message: string)

  datatype Verdict = Pass | Reject(message: string)

  /** Everything the component does that leaves it. */
  datatype Effect = Notify(toast: Toast) | RegisterPatientFull(payload: Sections)

  const FixInputErrors := "Please fix validation errors on this step."
  const PatientDetailsRequired := "All patient details are required."
  const ContactMustBeTenDigits := "Contact Number must be 10 digits."
  const BirthDateInFuture := "Date of Birth cannot be in the future."
  const GenderRequired := "Gender is a required field."
  const ProviderRequired := "Insurance Provider is required when adding Insurance."
  const PolicyNumberRequired := "Policy Number is required when adding Insurance."
  const RegisteredPrefix := "Patient registered successfully. ID: "
  const RegistrationFailed := "An error occurred."

  /** The length `contactNumber` must have. */
  const ContactLength := 10

  const InitialPatient: Record := map[
    "patientName" := Text(""), "dateOfBirth" := Null, "contactNumber" := Text(""),
    "email" := Text(""), "address" := Text(""), "gender" := Text("")]
  const InitialInsurance: Record := map[
    "provider" := Text(""), "policyNumber" := Text(""), "validTill" := Null, "isActive" := Flag(false)]
  const InitialMedicalHistory: Record := map[
    "condition" := Text(""), "diagnosedDate" := Null, "notes" := Text("")]
  const InitialSections := Sections(InitialPatient, InitialInsurance, InitialMedicalHistory)

  /** `record[key]`; a missing key reads as `undefined`, which behaves as `null`. */
  function Get(r: Record, key: string): Value {
    if key in r then r[key] else Null
  }

  /** JavaScript truthiness of a field value. */
  predicate IsTruthy(v: Value) {
    match v
    case Text(s) => Truthy(s)
    case Day(_) => true
    case Flag(b) => b
    case Null => false
  }

  /** `v.length === 10` for the contact number (only text has a length). */
  predicate HasContactLength(v: Value) {
    v.Text? && Utf16Length(v.text) == ContactLength
  }

  /** `new Date(v) > today`; a value that is not a date compares false. */
  predicate IsAfter(v: Value, today: int) {
    v.Day? && v.day > today
  }

  /** `v && v.trim() !== ''`: present and not only whitespace. */
  predicate IsFilled(v: Value) {
    match v
    case Text(s) => Truthy(s) && !IsBlank(s)
    case Day(_) => true
    case Flag(b) => b
    case Null => false
  }

  /** Text made only of whitespace does not count as filled. */
  lemma {:induction false} WhitespaceIsNotFilled(s: string)
    requires forall i :: 0 <= i < |s| ==> IsJsWhitespace(s[i])
    ensures !IsFilled(Text(s))
  {
    assert IsBlank(s);
  }

  /** The verdict of a list of rules checked in order: the message of the
      first broken rule, or Pass when every rule holds. */
  function FirstViolation(rules: seq<Rule>): (r: Verdict)
    ensures r == Pass <==> forall i :: 0 <= i < |rules| ==> rules[i].holds
    ensures r.Reject? ==> exists k :: 0 <= k < |rules| && !rules[k].holds && rules[k].message == r.message
                                     && forall j :: 0 <= j < k ==> rules[j].holds
  {
    if rules == [] then Pass
    else if !rules[0].holds then Reject(rules[0].message)
    else
      var r := FirstViolation(rules[1..]);
      assert forall i :: 1 <= i < |rules| ==> rules[i] == rules[1..][i - 1];
      if r.Reject? then
        var k :| 0 <= k < |rules[1..]| && !rules[1..][k].holds && rules[1..][k].message == r.message
                 && forall j :: 0 <= j < k ==> rules[1..][j].holds;
        assert !rules[k + 1].holds && rules[k + 1].message == r.message;
        r
      else r
  }

  /** Step 1's rules, in the order they are checked. */
  function PatientRules(p: Record, today: int): seq<Rule> {
    [ Rule(IsTruthy(Get(p, "patientName")) && IsTruthy(Get(p, "dateOfBirth")) && IsTruthy(Get(p, "contactNumber")),
           PatientDetailsRequired),
      Rule(HasContactLength(Get(p, "contactNumber")), ContactMustBeTenDigits),
      Rule(!IsAfter(Get(p, "dateOfBirth"), today), BirthDateInFuture),
      Rule(IsTruthy(Get(p, "gender")), GenderRequired) ]
  }

  /** Step 1's verdict: the first broken rule. */
  function PatientVerdict(p: Record, today: int): Verdict {
    FirstViolation(PatientRules(p, today))
  }

  /** Whether any insurance field has been filled in. */
  predicate AnyInsurance(ins: Record) {
    IsFilled(Get(ins, "provider")) || IsFilled(Get(ins, "policyNumber"))
    || IsTruthy(Get(ins, "validTill")) || IsTruthy(Get(ins, "isActive"))
  }

  /** Step 2's rules, which apply only once some insurance field is filled. */
  function InsuranceRules(ins: Record): seq<Rule> {
    [ Rule(IsFilled(Get(ins, "provider")), ProviderRequired),
      Rule(IsFilled(Get(ins, "policyNumber")), PolicyNumberRequired) ]
  }

  function InsuranceVerdict(ins: Record): Verdict {
    if AnyInsurance(ins) then FirstViolation(InsuranceRules(ins)) else Pass
  }

  /** The custom rules of the current step; step 3 has none. */
  function StepVerdict(step: string, p: Record, ins: Record, today: int): Verdict {
    if step == "1" then PatientVerdict(p, today)
    else if step == "2" then InsuranceVerdict(ins)
    else Pass
  }

  /** `validateCurrentStep`: the inputs' own validity first, then the step's rules. */
  function ValidationVerdict(inputsValid: seq<bool>, step: string, p: Record, ins: Record, today: int): (r: Verdict)
    ensures (exists i :: 0 <= i < |inputsValid| && !inputsValid[i]) ==> r == Reject(FixInputErrors)
    ensures (forall i :: 0 <= i < |inputsValid| ==> inputsValid[i]) && step == "3" ==> r == Pass
  {
    if exists i :: 0 <= i < |inputsValid| && !inputsValid[i] then Reject(FixInputErrors)
    else StepVerdict(step, p, ins, today)
  }

  /** The toast a verdict shows: one error toast for a rejection, none on Pass. */
  function VerdictToasts(v: Verdict): seq<Effect> {
    if v.Reject? then [Notify(ErrorToast(v.message))] else []
  }

  /** Step 1 passes exactly when every patient rule holds. */
  lemma PatientStepPassesIffComplete(p: Record, today: int)
    ensures PatientVerdict(p, today) == Pass <==>
      && IsTruthy(Get(p, "patientName")) && IsTruthy(Get(p, "dateOfBirth")) && IsTruthy(Get(p, "contactNumber"))
      && HasContactLength(Get(p, "contactNumber"))
      && !IsAfter(Get(p, "dateOfBirth"), today)
      && IsTruthy(Get(p, "gender"))
  {
    var rules := PatientRules(p, today);
    assert PatientVerdict(p, today) == Pass <==> forall i :: 0 <= i < |rules| ==> rules[i].holds;
    assert (forall i :: 0 <= i < |rules| ==> rules[i].holds) <==>
      rules[0].holds && rules[1].holds && rules[2].holds && rules[3].holds;
  }

  /** Only the first broken rule is reported: a patient with every detail but
      a short contact number and a future birth date hears about the number. */
  lemma PatientStepReportsFirstBrokenRule(p: Record, today: int)
    requires IsTruthy(Get(p, "patientName")) && IsTruthy(Get(p, "dateOfBirth")) && IsTruthy(Get(p, "contactNumber"))
    requires !HasContactLength(Get(p, "contactNumber"))
    ensures PatientVerdict(p, today) == Reject(ContactMustBeTenDigits)
  {
    var rules := PatientRules(p, today);
    assert rules[0].holds && !rules[1].holds;
    assert FirstViolation(rules) == FirstViolation(rules[1..]);
  }

  /** Step 2 passes exactly when no insurance field is filled, or when both
      the provider and the policy number are filled (after trimming). */
  lemma InsuranceStepPassesIff(ins: Record)
    ensures InsuranceVerdict(ins) == Pass <==>
      !AnyInsurance(ins) || (IsFilled(Get(ins, "provider")) && IsFilled(Get(ins, "policyNumber")))
  {
    var rules := InsuranceRules(ins);
    assert (forall i :: 0 <= i < |rules| ==> rules[i].holds) <==> rules[0].holds && rules[1].holds;
  }

  /** A missing provider is reported before a missing policy number. */
  lemma InsuranceStepReportsProviderFirst(ins: Record)
    requires AnyInsurance(ins) && !IsFilled(Get(ins, "provider"))
    ensures InsuranceVerdict(ins) == Reject(ProviderRequired)
  {
  }

  /** A provider and policy number made of spaces, with no date and the
      checkbox clear, count as no insurance at all. */
  lemma BlankInsurancePasses(ins: Record, provider: string, policy: string)
    requires Get(ins, "provider") == Text(provider) && Get(ins, "policyNumber") == Text(policy)
    requires forall i :: 0 <= i < |provider| ==> IsJsWhitespace(provider[i])
    requires forall i :: 0 <= i < |policy| ==> IsJsWhitespace(policy[i])
    requires !IsTruthy(Get(ins, "validTill")) && !IsTruthy(Get(ins, "isActive"))
    ensures InsuranceVerdict(ins) == Pass
  {
    WhitespaceIsNotFilled(provider);
    WhitespaceIsNotFilled(policy);
  }

  predicate IsStep(step: string) {
    step == "1" || step == "2" || step == "3"
  }

  function StepNumber(step: string): (n: int)
    requires IsStep(step)
    ensures 1 <= n <= 3
  {
    if step == "1" then 1 else if step == "2" then 2 else 3
  }

  /** The step `handleNext` moves to once validation passes: one up, and the
      last step stays where it is. */
  function NextStep(step: string): (r: string)
    ensures IsStep(step) ==> IsStep(r) && StepNumber(r) == if step == "3" then 3 else StepNumber(step) + 1
    ensures !IsStep(step) ==> r == step
  {
    if step == "1" then "2" else if step == "2" then "3" else step
  }

  /** The step `handleBack` moves to: one down, and the first step stays. */
  function PreviousStep(step: string): (r: string)
    ensures IsStep(step) ==> IsStep(r) && StepNumber(r) == if step == "1" then 1 else StepNumber(step) - 1
    ensures !IsStep(step) ==> r == step
  {
    if step == "3" then "2" else if step == "2" then "1" else step
  }

  /** Back undoes Next everywhere but on the last step, and Next undoes Back
      everywhere but on the first. */
  lemma BackUndoesNext(step: string)
    requires IsStep(step)
    ensures step != "3" ==> PreviousStep(NextStep(step)) == step
    ensures step != "1" ==> NextStep(PreviousStep(step)) == step
  {
  }

  /** The sections after an input of `section` named `name` reports `value`. */
  function WithField(s: Sections, section: Section, name: string, value: Value): Sections {
    match section
    case PatientSection => s.(patient := s.patient[name := value])
    case InsuranceSection => s.(insurance := s.insurance[name := value])
    case MedicalHistorySection => s.(medicalHistory := s.medicalHistory[name := value])
  }

  function SectionOf(s: Sections, section: Section): Record {
    match section
    case PatientSection => s.patient
    case InsuranceSection => s.insurance
    case MedicalHistorySection => s.medicalHistory
  }

  /** An input changes only its own key of its own section. */
  lemma WithFieldChangesOnlyThatKey(s: Sections, section: Section, name: string, value: Value, other: Section, key: string)
    ensures Get(SectionOf(WithField(s, section, name, value), section), name) == value
    ensures (other != section || key != name) ==>
      Get(SectionOf(WithField(s, section, name, value), other), key) == Get(SectionOf(s, other), key)
  {
  }

  /** The `forEach` over the visible inputs: true exactly when every input
      reports itself valid. */
  method AllInputsValid(inputsValid: seq<bool>) returns (allValid: bool)
    ensures allValid <==> forall i :: 0 <= i < |inputsValid| ==> inputsValid[i]
  {
    allValid := true;
    for i := 0 to |inputsValid|
      invariant allValid <==> forall j :: 0 <= j < i ==> inputsValid[j]
    {
      allValid := allValid && inputsValid[i];
    }
  }

  class RegistrationForm {
    var currentStep: string
    var patient: Record
    var insurance: Record
    var medicalHistory: Record
    var effects: seq<Effect>

    /** The wizard is always on one of its three steps. */
    ghost predicate Valid()
      reads this
    {
      IsStep(currentStep)
    }

    function Data(): Sections
      reads this
    {
      Sections(patient, insurance, medicalHistory)
    }

    constructor ()
      ensures Valid()
      ensures currentStep == "1" && Data() == InitialSections && effects == []
    {
      currentStep := "1";
      patient, insurance, medicalHistory := InitialPatient, InitialInsurance, InitialMedicalHistory;
      effects := [];
    }

    /** `handleChange`: the section is rebuilt with the one key replaced. */
    method HandleChange(section: Section, name: string, value: Value)
      requires Valid()
      modifies this`patient, this`insurance, this`medicalHistory
      ensures Valid()
      ensures Data() == WithField(old(Data()), section, name, value)
    {
      match section {
        case PatientSection => patient := patient[name := value];
        case InsuranceSection => insurance := insurance[name := value];
        case MedicalHistorySection => medicalHistory := medicalHistory[name := value];
      }
    }

    /** `handleCheckbox`: as `handleChange`, with the checkbox's state. */
    method HandleCheckbox(section: Section, name: string, checked: bool)
      requires Valid()
      modifies this`patient, this`insurance, this`medicalHistory
      ensures Valid()
      ensures Data() == WithField(old(Data()), section, name, Flag(checked))
    {
      HandleChange(section, name, Flag(checked));
    }

    /** `validateCurrentStep`; `inputsValid` holds what each visible input's
        `checkValidity()` answers and `today` is the current day. A failure
        shows one error toast. */
    method ValidateCurrentStep(inputsValid: seq<bool>, today: int) returns (ok: bool)
      requires Valid()
      modifies this`effects
      ensures Valid()
      ensures ok <==> ValidationVerdict(inputsValid, currentStep, patient, insurance, today) == Pass
      ensures effects == old(effects) + VerdictToasts(ValidationVerdict(inputsValid, currentStep, patient, insurance, today))
    {
      var allValid := AllInputsValid(inputsValid);
      if !allValid {
        effects := effects + [Notify(ErrorToast(FixInputErrors))];
        return false;
      }
      if currentStep == "1" {
        var v := PatientVerdict(patient, today);
        if v.Reject? {
          effects := effects + [Notify(ErrorToast(v.message))];
          return false;
        }
      }
      if currentStep == "2" {
        var v := InsuranceVerdict(insurance);
        if v.Reject? {
          effects := effects + [Notify(ErrorToast(v.message))];
          return false;
        }
      }
      return true;
    }

    /** `handleNext`: the step advances only when validation passes. */
    method HandleNext(inputsValid: seq<bool>, today: int)
      requires Valid()
      modifies this`currentStep, this`effects
      ensures Valid()
      ensures var v := ValidationVerdict(inputsValid, old(currentStep), patient, insurance, today);
        && currentStep == (if v == Pass then NextStep(old(currentStep)) else old(currentStep))
        && effects == old(effects) + VerdictToasts(v)
    {
      var ok := ValidateCurrentStep(inputsValid, today);
      if !ok {
        return;
      }
      if currentStep == "1" {
        currentStep := "2";
      } else if currentStep == "2" {
        currentStep := "3";
      }
    }

    /** `handleBack`. */
    method HandleBack()
      requires Valid()
      modifies this`currentStep
      ensures Valid()
      ensures currentStep == PreviousStep(old(currentStep))
    {
      if currentStep == "3" {
        currentStep := "2";
      } else if currentStep == "2" {
        currentStep := "1";
      }
    }

    /** `handleSubmit`, up to the request: without a passing validation nothing
        is sent. */
    method HandleSubmit(inputsValid: seq<bool>, today: int)
      requires Valid()
      modifies this`effects
      ensures Valid()
      ensures var v := ValidationVerdict(inputsValid, currentStep, patient, insurance, today);
        effects == old(effects) + VerdictToasts(v) + (if v == Pass then [RegisterPatientFull(Data())] else [])
    {
      var ok := ValidateCurrentStep(inputsValid, today);
      if !ok {
        return;
      }
      effects := effects + [RegisterPatientFull(Data())];
    }

    /** The registration settles: on success the new id is shown and the
        wizard is reset; on failure the data stays and the backend's message
        (or the fixed fallback) is shown. */
    method RegistrationSettled(result: Outcome<string>)
      requires Valid()
      requires exists e :: e in effects && e.RegisterPatientFull?
      modifies this`currentStep, this`patient, this`insurance, this`medicalHistory, this`effects
      ensures Valid()
      ensures result.Success? ==>
        currentStep == "1" && Data() == InitialSections
        && effects == old(effects) + [Notify(SuccessToast(RegisteredPrefix + result.value))]
      ensures result.Failure? ==>
        currentStep == old(currentStep) && Data() == old(Data())
        && effects == old(effects) + [Notify(ErrorToast(ErrorText(result.body, RegistrationFailed)))]
    {
      match result {
        case Success(patientId) =>
          effects := effects + [Notify(SuccessToast(RegisteredPrefix + patientId))];
          ResetAll();
        case Failure(body) =>
          effects := effects + [Notify(ErrorToast(ErrorText(body, RegistrationFailed)))];
      }
    }

    /** `resetAll`: back to step 1 with every section as it started. */
    method ResetAll()
      requires Valid()
      modifies this`currentStep, this`patient, this`insurance, this`medicalHistory
      ensures Valid()
      ensures currentStep == "1" && Data() == InitialSections
    {
      currentStep := "1";
      patient := InitialPatient;
      insurance := InitialInsurance;
      medicalHistory := InitialMedicalHistory;
    }
  }
}
