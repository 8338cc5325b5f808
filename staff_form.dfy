/**
 * The create/edit staff form: its field values, per-field errors and
 * submission. Date and number parsing and formatting are outside the
 * model: the submitted salary arrives already parsed (`None` for `NaN`),
 * the date of birth as parsed numbers, and the edit-mode date and salary
 * texts already formatted. Create and update requests are recorded in
 * `calls` and their outcome arrives as a parameter; the delayed redirect
 * is recorded in `redirect`.
 */
module StaffForm {
  import opened Wrappers
  import opened Text
  import opened StaffTypes
  import opened Validators

  const CreatedMessage := "Staff created successfully!"
  const UpdatedMessage := "Staff updated successfully!"
  const SubmitFailedMessage := "An error occurred"
  const ListRoute := "/staff"

  datatype Mode = CreateMode | EditMode

  /** The form's five inputs, all text as the browser gives them. */
  datatype FormData = FormData(staffId: string, name: string, dob: string, salary: string, status: string)
  {
    /** The value of the input named `field`. */
    function Get(field: Field): string {
      match field
      case StaffIdField => staffId
      case NameField => name
      case DobField => dob
      case SalaryField => salary
      case StatusField => status
    }
  }

  /** A request the form sends to the staff service. */
  datatype ServiceCall =
    | Create(payload: StaffPayload)
      /** `staffId` is the page's route parameter, sent as is even when absent. */
    | Update(staffId: Option<string>, payload: StaffPayload)

  /**
   * The request body: staff id and name trimmed, the other fields as
   * entered, the salary parsed.
   */
  function Payload(formData: FormData, salary: real): (p: StaffPayload)
    ensures p.staffId == Trim(formData.staffId) && p.name == Trim(formData.name)
    ensures p.dob == formData.dob && p.salary == salary && p.status == formData.status
  {
    StaffPayload(Trim(formData.staffId), Trim(formData.name), formData.dob, salary, formData.status)
  }

  /** A staff id the backend receives from a valid form: 1 to 20 UTF-16 code units, already trimmed. */
  predicate CleanStaffId(t: string) {
    1 <= Utf16Length(t) <= 20 && Trim(t) == t
  }

  /** A name the backend receives from a valid form: 2 to 100 letters and spaces, none at either end. */
  predicate CleanName(t: string) {
    && 2 <= |t| <= 100 && LettersAndSpaces(t)
    && !IsSpace(t[0]) && !IsSpace(t[|t| - 1]) && Trim(t) == t
  }

  /**
   * A body built from inputs that pass validation keeps to the validators'
   * rules: a clean staff id, a clean name and a salary of at least zero.
   */
  lemma ValidatedPayload(formData: FormData, salary: real)
    requires ValidateStaffId(formData.staffId).None? && ValidateName(formData.name).None?
    requires ValidateSalary(Some(salary)).None?
    ensures var p := Payload(formData, salary);
      CleanStaffId(p.staffId) && CleanName(p.name) && p.salary >= 0.0
  {
    ValidatedStaffId(formData.staffId);
    ValidatedName(formData.name);
  }

  /** An accepted staff id, once trimmed, is clean. */
  lemma ValidatedStaffId(staffId: string)
    requires ValidateStaffId(staffId).None?
    ensures CleanStaffId(Trim(staffId))
  {
    TrimmedIsFixed(Trim(staffId));
  }

  /** An accepted name, once trimmed, is clean. */
  lemma ValidatedName(name: string)
    requires ValidateName(name).None?
    ensures CleanName(Trim(name))
  {
    var t := Trim(name);
    assert 2 <= Utf16Length(t) <= 100 && LettersAndSpaces(t);
    LettersAndSpacesLength(t);
    assert !IsSpace(t[0]) && !IsSpace(t[|t| - 1]);
    TrimmedIsFixed(t);
  }

  /** A string with no whitespace at either end trims to itself. */
  lemma TrimmedIsFixed(t: string)
    requires t == [] || (!IsSpace(t[0]) && !IsSpace(t[|t| - 1]))
    ensures Trim(t) == t
  {
    assert TrimStart(t) == t;
  }

  /** What `validateStaffForm` is given: the text inputs, with the salary parsed. */
  function Input(formData: FormData, salary: Option<real>): StaffFormInput {
    StaffFormInput(formData.staffId, formData.name, formData.dob, salary)
  }

  class Form {
    const mode: Mode
    const initialData: Option<Staff>
    const staffIdParam: Option<string>
    var formData: FormData
    var errors: map<Field, string>
    var isLoading: bool
    var error: Option<string>
    var success: Option<string>
    /** Every create or update request sent, oldest first. */
    var calls: seq<ServiceCall>
    /** Where the form has scheduled the router to go. */
    var redirect: Option<string>

    /** A freshly mounted form: empty inputs, status "active", no errors, nothing sent. */
    constructor (mode: Mode, initialData: Option<Staff>, staffIdParam: Option<string>)
      ensures this.mode == mode && this.initialData == initialData && this.staffIdParam == staffIdParam
      ensures formData == FormData("", "", "", "", StatusText(Active))
      ensures errors == map[] && !isLoading && error.None? && success.None?
      ensures calls == [] && redirect.None?
    {
      this.mode := mode;
      this.initialData := initialData;
      this.staffIdParam := staffIdParam;
      formData := FormData("", "", "", "", StatusText(Active));
      errors := map[];
      isLoading := false;
      error := None;
      success := None;
      calls := [];
      redirect := None;
    }

    /**
     * The edit-mode effect: with initial data, the inputs take its staff
     * id, name and status, and the given texts for the date and salary
     * (`formatDateForInput(dob)` and `salary.toString()`). Otherwise the
     * inputs stay as they are.
     */
    method PopulateFromInitialData(dobText: string, salaryText: string)
      modifies this`formData
      ensures mode == EditMode && initialData.Some? ==>
        && formData.staffId == initialData.value.staffId
        && formData.name == initialData.value.name
        && formData.status == StatusText(initialData.value.status)
        && formData.dob == dobText && formData.salary == salaryText
      ensures !(mode == EditMode && initialData.Some?) ==> formData == old(formData)
    {
      if mode == EditMode && initialData.Some? {
        var staff := initialData.value;
        formData := FormData(staff.staffId, staff.name, dobText, salaryText, StatusText(staff.status));
      }
    }

    /**
     * `handleChange`: the input named `field` takes `value`, every other
     * input keeps its value, and that field's error, when it holds a
     * message, is removed while the other errors stay.
     */
    method HandleChange(field: Field, value: string)
      modifies this`formData, this`errors
      ensures formData.Get(field) == value
      ensures forall other: Field :: other != field ==> formData.Get(other) == old(formData).Get(other)
      ensures field in old(errors) && old(errors)[field] != "" ==> errors == old(errors) - {field}
      ensures !(field in old(errors) && old(errors)[field] != "") ==> errors == old(errors)
    {
      match field {
        case StaffIdField => formData := formData.(staffId := value);
        case NameField => formData := formData.(name := value);
        case DobField => formData := formData.(dob := value);
        case SalaryField => formData := formData.(salary := value);
        case StatusField => formData := formData.(status := value);
      }
      if field in errors && errors[field] != "" {
        errors := errors - {field};
      }
    }

    /**
     * `handleSubmit`, given the parsed salary and date of birth, today's
     * date and how the service call settles. The previous banner is
     * cleared; a form that fails validation shows the validators' messages
     * and sends nothing; otherwise exactly one create (create mode) or
     * update (edit mode) request is sent with the trimmed body, and its
     * outcome sets the success banner and redirect, or the error banner.
     */
    method Submit(salary: Option<real>, birth: Option<Ymd>, today: Ymd, outcome: CallOutcome)
      modifies this`errors, this`isLoading, this`error, this`success, this`calls, this`redirect
      ensures var verdict := FormErrors(Input(old(formData), salary), birth, today);
        && (verdict != map[] ==>
              && errors == verdict
              && isLoading == old(isLoading)
              && calls == old(calls) && error.None? && success.None? && redirect == old(redirect))
        && (verdict == map[] ==>
              && salary.Some?
              && !isLoading
              && errors == old(errors)
              && calls == old(calls) + [
                   if mode == CreateMode then Create(Payload(old(formData), salary.value))
                   else Update(staffIdParam, Payload(old(formData), salary.value))]
              && (outcome.Resolved? ==>
                    && success == Some(if mode == CreateMode then CreatedMessage else UpdatedMessage)
                    && error.None? && redirect == Some(ListRoute))
              && (outcome.Threw? ==>
                    && error == Some(MessageOf(outcome.thrown, SubmitFailedMessage))
                    && success.None? && redirect == old(redirect)))
    {
      var form := formData;
      error := None;
      success := None;
      var validationErrors := ValidateStaffForm(Input(form, salary), birth, today);
      if validationErrors != map[] {
        errors := validationErrors;
        return;
      }
      PassingFormHasSalary(Input(form, salary), birth, today);
      Send(Payload(form, salary.value), outcome);
    }

    /**
     * The `try` block of `handleSubmit` for a valid form: one create or
     * update request with `payload`, then the banner and redirect its
     * outcome calls for, with the spinner off at the end.
     */
    method Send(payload: StaffPayload, outcome: CallOutcome)
      modifies this`isLoading, this`error, this`success, this`calls, this`redirect
      requires error.None? && success.None?
      ensures !isLoading
      ensures calls == old(calls) + [if mode == CreateMode then Create(payload) else Update(staffIdParam, payload)]
      ensures outcome.Resolved? ==>
        && success == Some(if mode == CreateMode then CreatedMessage else UpdatedMessage)
        && error.None? && redirect == Some(ListRoute)
      ensures outcome.Threw? ==>
        && error == Some(MessageOf(outcome.thrown, SubmitFailedMessage))
        && success.None? && redirect == old(redirect)
    {
      isLoading := true;
      if mode == CreateMode {
        calls := calls + [Create(payload)];
      } else {
        calls := calls + [Update(staffIdParam, payload)];
      }
      match outcome {
        case Resolved =>
          success := Some(if mode == CreateMode then CreatedMessage else UpdatedMessage);
          redirect := Some(ListRoute);
        case Threw(thrown) =>
          error := Some(MessageOf(thrown, SubmitFailedMessage));
      }
      isLoading := false;
    }
  }
}
