/**
 * The staff form's field validators. Each applies its checks in a fixed
 * order and returns the first failing check's message, or `None` (`null`).
 * Date parsing and `parseFloat` are outside the model: the date of birth
 * arrives as parsed (year, month, day) numbers and the salary as an
 * already-parsed number, `None` standing for `NaN`.
 */
module Validators {
  import opened Wrappers
  import opened Text

  const NameRequired := "Name is required"
  const NameTooShort := "Name must be at least 2 characters"
  const NameTooLong := "Name must be less than 100 characters"
  const NameBadCharacters := "Name must contain only letters and spaces"
  const StaffIdRequired := "Staff ID is required"
  const StaffIdTooLong := "Staff ID must be less than 20 characters"
  const DobRequired := "Date of birth is required"
  const DobTooYoung := "Staff must be at least 18 years old"
  const SalaryNotANumber := "Salary must be a valid number"
  const SalaryNegative := "Salary cannot be negative"

  /** `/^[a-zA-Z\s]+$/.test(s)`. */
  predicate LettersAndSpaces(s: string) {
    |s| > 0 && forall k :: 0 <= k < |s| ==> IsAsciiLetter(s[k]) || IsSpace(s[k])
  }

  /** `validateName`: the lengths are `.length`, counted in UTF-16 code units. */
  function ValidateName(name: string): (r: Option<string>)
    ensures r.None? <==> 2 <= Utf16Length(Trim(name)) <= 100 && LettersAndSpaces(Trim(name))
    ensures r.Some? ==> r.value in {NameRequired, NameTooShort, NameTooLong, NameBadCharacters}
  {
    var trimmed := Trim(name);
    if name == "" || Utf16Length(trimmed) == 0 then Some(NameRequired)
    else if Utf16Length(trimmed) < 2 then Some(NameTooShort)
    else if Utf16Length(trimmed) > 100 then Some(NameTooLong)
    else if !LettersAndSpaces(trimmed) then Some(NameBadCharacters)
    else None
  }

  /** The checks run in order; each message is returned exactly when the earlier checks pass and its own fails. */
  lemma NameChecksInOrder(name: string)
    ensures ValidateName(name) == Some(NameRequired) <==> Trim(name) == ""
    ensures ValidateName(name) == Some(NameTooShort) <==> Utf16Length(Trim(name)) == 1
    ensures ValidateName(name) == Some(NameTooLong) <==> Utf16Length(Trim(name)) > 100
    ensures ValidateName(name) == Some(NameBadCharacters) <==>
      2 <= Utf16Length(Trim(name)) <= 100 && !LettersAndSpaces(Trim(name))
  {
    if name == "" {
      assert Trim(name) == "";
    }
  }

  /**
   * A single code point above U+FFFF is two code units long: the emoji name
   * "\U{1F600}" passes the length checks and is refused for its characters.
   */
  lemma AstralNameIsTwoUnits()
    ensures ValidateName("\U{1F600}") == Some(NameBadCharacters)
  {
    assert Trim("\U{1F600}") == "\U{1F600}" by {
      assert TrimStart("\U{1F600}") == "\U{1F600}";
    }
  }

  /** Leading and trailing whitespace never changes `validateName`'s verdict. */
  lemma NameIgnoresPadding(pre: string, name: string, post: string)
    requires AllSpace(pre) && AllSpace(post)
    ensures ValidateName(pre + name + post) == ValidateName(name)
  {
    TrimIgnoresPadding(pre, name, post);
    if name == "" {
      assert Trim(name) == "";
    }
    if pre + name + post == "" {
      assert name == "";
    }
  }

  /** Letters and whitespace all lie below U+10000: such a string has one code unit per character. */
  lemma LettersAndSpacesLength(s: string)
    requires LettersAndSpaces(s)
    ensures Utf16Length(s) == |s|
  {
    assert forall k :: 0 <= k < |s| ==> !IsAstral(s[k]);
  }

  /** The upper bound is inclusive: a name of 100 letters is accepted and one of 101 is not. */
  lemma NameLengthBound(name: string)
    requires forall k :: 0 <= k < |name| ==> IsAsciiLetter(name[k])
    ensures ValidateName(name).None? <==> 2 <= |name| <= 100
  {
    LettersAreNotTrimmed(name);
    if name != [] {
      LettersAndSpacesLength(name);
    }
  }

  lemma LettersAreNotTrimmed(s: string)
    requires forall k :: 0 <= k < |s| ==> IsAsciiLetter(s[k])
    ensures Trim(s) == s
  {
  }

  /** `validateStaffId`: the length is `.length`, counted in UTF-16 code units. */
  function ValidateStaffId(staffId: string): (r: Option<string>)
    ensures r.None? <==> 1 <= Utf16Length(Trim(staffId)) <= 20
    ensures r == Some(StaffIdRequired) <==> Trim(staffId) == ""
    ensures r == Some(StaffIdTooLong) <==> Utf16Length(Trim(staffId)) > 20
  {
    var trimmed := Trim(staffId);
    if staffId == "" || Utf16Length(trimmed) == 0 then
      assert staffId == "" ==> trimmed == "";
      Some(StaffIdRequired)
    else if Utf16Length(trimmed) > 20 then Some(StaffIdTooLong)
    else None
  }

  /** Eleven emoji are 22 code units: too long for a staff id, though only eleven characters. */
  lemma AstralStaffIdIsTooLong()
    ensures ValidateStaffId(seq(11, _ => '\U{1F600}')) == Some(StaffIdTooLong)
  {
    var id: string := seq(11, _ => '\U{1F600}');
    assert Trim(id) == id by {
      assert TrimStart(id) == id;
      assert TrimEnd(id) == id;
    }
    assert forall k :: 0 <= k < |id| ==> IsAstral(id[k]);
  }

  /** Leading and trailing whitespace never changes `validateStaffId`'s verdict. */
  lemma StaffIdIgnoresPadding(pre: string, staffId: string, post: string)
    requires AllSpace(pre) && AllSpace(post)
    ensures ValidateStaffId(pre + staffId + post) == ValidateStaffId(staffId)
  {
    TrimIgnoresPadding(pre, staffId, post);
  }

  /** A calendar date as `getFullYear`, `getMonth` and `getDate` report it. */
  datatype Ymd = Ymd(year: int, month: int, day: int)

  /** `a` is on or before `b` in calendar order. */
  predicate OnOrBefore(a: Ymd, b: Ymd) {
    a.year < b.year || (a.year == b.year && (a.month < b.month || (a.month == b.month && a.day <= b.day)))
  }

  /** Someone born on `birth` has turned `years` by `today`. */
  predicate HasTurned(birth: Ymd, today: Ymd, years: int) {
    OnOrBefore(Ymd(birth.year + years, birth.month, birth.day), today)
  }

  /**
   * What `validateDob` answers, stated by the 18th birthday: an empty string
   * is missing; an unparseable one is let through (every comparison with
   * `NaN` is false); otherwise the error is returned exactly when today is
   * before the 18th birthday.
   */
  function DobError(dob: string, birth: Option<Ymd>, today: Ymd): Option<string> {
    if dob == "" then Some(DobRequired)
    else if birth.None? then None
    else if HasTurned(birth.value, today, 18) then None
    else Some(DobTooYoung)
  }

  /**
   * `validateDob`, with today's date passed in and `birth` the parsed date
   * (`None` for an Invalid Date). `age` is the year difference, less one
   * when today's month and day come before the birthday's.
   */
  method ValidateDob(dob: string, birth: Option<Ymd>, today: Ymd) returns (r: Option<string>)
    ensures r == DobError(dob, birth, today)
  {
    if dob == "" {
      return Some(DobRequired);
    }
    if birth.None? {
      return None;
    }
    var birthDate := birth.value;
    var age := today.year - birthDate.year;
    var monthDiff := today.month - birthDate.month;
    if monthDiff < 0 || (monthDiff == 0 && today.day < birthDate.day) {
      age := age - 1;
    }
    if age < 18 {
      return Some(DobTooYoung);
    }
    return None;
  }

  /** `validateSalary`: `NaN` is not a number, a negative value is refused, zero and above pass. */
  function ValidateSalary(salary: Option<real>): (r: Option<string>)
    ensures salary.None? <==> r == Some(SalaryNotANumber)
    ensures r == Some(SalaryNegative) <==> salary.Some? && salary.value < 0.0
    ensures r.None? <==> salary.Some? && salary.value >= 0.0
  {
    if salary.None? then Some(SalaryNotANumber)
    else if salary.value < 0.0 then Some(SalaryNegative)
    else None
  }

  /** The keys of `StaffFormErrors` (and the form's `status` field, which has no validator). */
  datatype Field = StaffIdField | NameField | DobField | SalaryField | StatusField

  /** The fields `validateStaffForm` reads, after parsing. */
  datatype StaffFormInput = StaffFormInput(staffId: string, name: string, dob: string, salary: Option<real>)

  /**
   * The errors object built from the four validators' verdicts: a key
   * exactly for each failing field, holding its message, and no other key;
   * so it is empty exactly when all four pass.
   */
  function Collect(staffIdError: Option<string>, nameError: Option<string>,
                   dobError: Option<string>, salaryError: Option<string>): (errors: map<Field, string>)
    ensures StaffIdField in errors <==> staffIdError.Some?
    ensures StaffIdField in errors ==> errors[StaffIdField] == staffIdError.value
    ensures NameField in errors <==> nameError.Some?
    ensures NameField in errors ==> errors[NameField] == nameError.value
    ensures DobField in errors <==> dobError.Some?
    ensures DobField in errors ==> errors[DobField] == dobError.value
    ensures SalaryField in errors <==> salaryError.Some?
    ensures SalaryField in errors ==> errors[SalaryField] == salaryError.value
    ensures StatusField !in errors
    ensures errors == map[] <==> staffIdError.None? && nameError.None? && dobError.None? && salaryError.None?
  {
    var errors := Put(Put(Put(Put(map[], StaffIdField, staffIdError), NameField, nameError), DobField, dobError),
                      SalaryField, salaryError);
    assert errors == map[] ==>
      StaffIdField !in errors && NameField !in errors && DobField !in errors && SalaryField !in errors;
    errors
  }

  /** `if (message) errors[field] = message`. */
  function Put(errors: map<Field, string>, field: Field, message: Option<string>): map<Field, string> {
    if message.Some? then errors[field := message.value] else errors
  }

  /** The verdict of `validateStaffForm` on a form. */
  function FormErrors(input: StaffFormInput, birth: Option<Ymd>, today: Ymd): map<Field, string> {
    Collect(ValidateStaffId(input.staffId), ValidateName(input.name),
            DobError(input.dob, birth, today), ValidateSalary(input.salary))
  }

  /** A form that passes validation has a salary that parsed to a number of at least zero. */
  lemma PassingFormHasSalary(input: StaffFormInput, birth: Option<Ymd>, today: Ymd)
    requires FormErrors(input, birth, today) == map[]
    ensures input.salary.Some? && input.salary.value >= 0.0
  {
    assert ValidateSalary(input.salary).None?;
  }

  /** `validateStaffForm`, filling the errors object field by field. */
  method ValidateStaffForm(input: StaffFormInput, birth: Option<Ymd>, today: Ymd) returns (errors: map<Field, string>)
    ensures errors == FormErrors(input, birth, today)
  {
    // The four validators are pure, so their verdicts are taken first; the
    // object is then filled field by field as in the source.
    var staffIdError := ValidateStaffId(input.staffId);
    var nameError := ValidateName(input.name);
    var dobError := ValidateDob(input.dob, birth, today);
    var salaryError := ValidateSalary(input.salary);
    errors := map[];
    if staffIdError.Some? {
      errors := errors[StaffIdField := staffIdError.value];
    }
    ghost var soFar := Put(map[], StaffIdField, staffIdError);
    assert errors == soFar;
    if nameError.Some? {
      errors := errors[NameField := nameError.value];
    }
    soFar := Put(soFar, NameField, nameError);
    assert errors == soFar;
    if dobError.Some? {
      errors := errors[DobField := dobError.value];
    }
    soFar := Put(soFar, DobField, dobError);
    assert errors == soFar;
    if salaryError.Some? {
      errors := errors[SalaryField := salaryError.value];
    }
    soFar := Put(soFar, SalaryField, salaryError);
    assert errors == soFar;
  }
}
