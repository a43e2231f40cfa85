/** Step 1 of the wizard (src/pages/wizard/step1.tsx): the basic-info form,
    its field-change error clearing, the employee-ID effect that copies the
    generated ID into the form, the submit handler and the form-valid
    predicate that enables the Next button. */
module Step1 {
  import opened Js
  import opened EmployeeTypes
  import opened FormValidation
  import opened EmployeeId

  const DefaultRole := Role.Ops.Text()

  /** The form fields a change handler can name (`keyof Step1Data`). */
  datatype Step1Field = FullNameField | EmailField | DepartmentField | RoleField | EmployeeIdField
  {
    function Key(): string
    {
      match this
      case FullNameField => "fullName"
      case EmailField => "email"
      case DepartmentField => "department"
      case RoleField => "role"
      case EmployeeIdField => "employeeId"
    }
  }

  function SetField(data: Step1Data, field: Step1Field, value: string): (r: Step1Data)
    ensures field == FullNameField ==> r == data.(fullName := value)
    ensures field == EmailField ==> r == data.(email := value)
    ensures field == DepartmentField ==> r == data.(department := value)
    ensures field == RoleField ==> r == data.(role := value)
    ensures field == EmployeeIdField ==> r == data.(employeeId := value)
  {
    match field
    case FullNameField => data.(fullName := value)
    case EmailField => data.(email := value)
    case DepartmentField => data.(department := value)
    case RoleField => data.(role := value)
    case EmployeeIdField => data.(employeeId := value)
  }

  /** The initial form state: each field from the initial data when it is a
      non-empty string, otherwise "" (the role: "Ops"). */
  function InitialStep1(initial: Option<Step1Partial>): (d: Step1Data)
    ensures initial.None? ==> d == Step1Data("", "", "", DefaultRole, "")
    ensures initial.Some? ==>
              d.fullName == OrElse(initial.value.fullName, "") &&
              d.email == OrElse(initial.value.email, "") &&
              d.department == OrElse(initial.value.department, "") &&
              d.role == OrElse(initial.value.role, DefaultRole) &&
              d.employeeId == OrElse(initial.value.employeeId, "")
  {
    match initial
    case None => Step1Data("", "", "", DefaultRole, "")
    case Some(p) =>
      Step1Data(OrElse(p.fullName, ""), OrElse(p.email, ""), OrElse(p.department, ""),
                OrElse(p.role, DefaultRole), OrElse(p.employeeId, ""))
  }

  /** A form reported to the wizard and handed back as initial data comes
      back unchanged, except that an empty role becomes "Ops". */
  lemma InitialRestoresReported(d: Step1Data)
    ensures InitialStep1(Some(d.ToPartial())) == d.(role := if d.role == "" then DefaultRole else d.role)
  {
  }

  /** The error update of `handleChange`: a set message becomes `undefined`,
      the key itself stays. */
  function ClearError(errors: Errors, key: string): (r: Errors)
    ensures r.Keys == errors.Keys
    ensures key in errors ==> !Truthy(r[key])
    ensures forall k :: k in errors && k != key ==> r[k] == errors[k]
  {
    if key in errors && Truthy(errors[key]) then errors[key := None] else errors
  }

  /** `isFormValid` as written: counts error keys, whatever their value. */
  predicate FormValidAsWritten(data: Step1Data, errors: Errors)
  {
    !Blank(data.fullName) && !Blank(data.email) && !Blank(data.department) && data.role != "" &&
    |errors| == 0
  }

  /** The evidently intended `isFormValid`: only errors still showing a
      message block the form. */
  predicate FormValid(data: Step1Data, errors: Errors)
  {
    !Blank(data.fullName) && !Blank(data.email) && !Blank(data.department) && data.role != "" &&
    forall k :: k in errors ==> !Truthy(errors[k])
  }

  /** As written, once a key is stored no edit ever removes it, so the
      form stays invalid whatever is typed. */
  lemma AsWrittenNeverRecovers(data: Step1Data, errors: Errors, field: Step1Field, value: string)
    requires |errors| > 0
    ensures |ClearError(errors, field.Key())| > 0
    ensures !FormValidAsWritten(SetField(data, field, value), ClearError(errors, field.Key()))
  {
    assert ClearError(errors, field.Key()).Keys == errors.Keys;
  }

  /** With the intended predicate, editing each field that showed an error
      unblocks the form as soon as its four fields are filled in. */
  lemma CorrectedRecovers(data: Step1Data, errors: Errors)
    requires !Blank(data.fullName) && !Blank(data.email) && !Blank(data.department) && data.role != ""
    requires forall k :: k in errors ==> k in {"fullName", "email", "department", "role"}
    ensures var e := ClearError(ClearError(ClearError(ClearError(errors, "fullName"), "email"), "department"), "role");
            FormValid(data, e)
  {
  }

  /** Both predicates agree while no error is stored. */
  lemma PredicatesAgreeWithoutErrors(data: Step1Data)
    ensures FormValidAsWritten(data, map[]) <==> FormValid(data, map[])
  {
  }

  class Step1Form {
    var formData: Step1Data
    var errors: Errors
    /** The `employeeId` state of the ID hook. */
    var generatedId: string

    constructor (initial: Option<Step1Partial>)
      ensures formData == InitialStep1(initial) && errors == map[] && generatedId == ""
    {
      formData := InitialStep1(initial);
      errors := map[];
      generatedId := "";
    }

    /** `disabled={!isFormValid}`: a blank field or any stored error key,
        even one whose message was cleared, disables the Next button. */
    function SubmitDisabled(): (disabled: bool)
      reads this
      ensures |errors| > 0 ==> disabled
      ensures disabled <==> Blank(formData.fullName) || Blank(formData.email) || Blank(formData.department) ||
                            formData.role == "" || errors != map[]
    {
      !FormValidAsWritten(formData, errors)
    }

    /** The evidently intended guard: only a message still shown blocks. */
    function SubmitDisabledIntended(): (disabled: bool)
      reads this
      ensures disabled <==> Blank(formData.fullName) || Blank(formData.email) || Blank(formData.department) ||
                            formData.role == "" || exists k :: k in errors && Truthy(errors[k])
      ensures disabled ==> SubmitDisabled()
      ensures errors == map[] ==> disabled == SubmitDisabled()
    {
      !FormValid(formData, errors)
    }

    /** `handleChange`: the one field is replaced and its message cleared.
        Returns what the data-change effect reports to the wizard. */
    method HandleChange(field: Step1Field, value: string) returns (reported: Step1Partial)
      modifies this
      ensures formData == SetField(old(formData), field, value)
      ensures errors == ClearError(old(errors), field.Key())
      ensures generatedId == old(generatedId)
      ensures reported == formData.ToPartial()
    {
      formData := SetField(formData, field, value);
      var key := field.Key();
      if key in errors && Truthy(errors[key]) {
        errors := errors[key := None];
      }
      reported := formData.ToPartial();
    }

    /** `handleDepartmentSelect`. */
    method HandleDepartmentSelect(dept: Department) returns (reported: Step1Partial)
      modifies this
      ensures formData == old(formData).(department := dept.name)
      ensures errors == ClearError(old(errors), "department")
      ensures generatedId == old(generatedId)
      ensures reported == formData.ToPartial()
    {
      reported := HandleChange(DepartmentField, dept.name);
    }

    /** The ID hook's effect for the current department: `lookup` is what
        `getBasicInfo` delivered (`None`: it failed), `nowMillis` the clock.
        An emptied department resets the hook's ID. */
    method EmployeeIdEffect(lookup: Option<seq<BasicInfo>>, nowMillis: nat)
      modifies this
      ensures generatedId == GenerateEmployeeId(old(formData).department, lookup, nowMillis)
      ensures formData == old(formData) && errors == old(errors)
    {
      generatedId := GenerateEmployeeId(formData.department, lookup, nowMillis);
    }

    /** The form's effect on a new hook ID: a non-empty ID is copied into the
        form; an empty one leaves the form's copy as it was. */
    method CopyEmployeeId()
      modifies this
      ensures formData == if generatedId != "" then old(formData).(employeeId := generatedId) else old(formData)
      ensures generatedId == old(generatedId) && errors == old(errors)
    {
      if generatedId != "" {
        formData := formData.(employeeId := generatedId);
      }
    }

    /** `handleSubmit`: failing validation stores the errors and does not
        move on; passing validation hands the form, with the hook's ID, to
        `onNext`. */
    method HandleSubmit() returns (next: Option<Step1Data>)
      modifies this
      ensures Step1Errors(formData) != map[] ==> errors == Step1Errors(formData) && next == None
      ensures Step1Errors(formData) == map[] ==>
                errors == old(errors) && next == Some(formData.(employeeId := generatedId))
      ensures next.Some? <==> Step1Passes(formData)
      ensures formData == old(formData) && generatedId == old(generatedId)
    {
      var validationErrors := ValidateStep1(formData);
      Step1ErrorsFacts(formData);
      if |validationErrors| > 0 {
        errors := validationErrors;
        next := None;
        return;
      }
      assert validationErrors == map[];
      next := Some(formData.(employeeId := generatedId));
    }
  }

  /** The sequence behind the finding: a non-blank but malformed e-mail
      (one the browser's `type="email"` check lets through, as it has an
      "@") passes the button guard, the submit stores an e-mail error, and once
      the address is corrected every check passes, yet the form as written
      stays invalid. The intended predicate accepts it. */
  method StuckAfterInvalidEmail() returns (form: Step1Form, rejected: Option<Step1Data>)
    ensures rejected == None
    ensures Step1Passes(form.formData)
    ensures !FormValidAsWritten(form.formData, form.errors) && form.SubmitDisabled()
    ensures FormValid(form.formData, form.errors) && !form.SubmitDisabledIntended()
  {
    form := new Step1Form(None);
    var r1 := form.HandleChange(FullNameField, "Ann");
    var r2 := form.HandleChange(EmailField, "ann@x");
    var r3 := form.HandleChange(DepartmentField, "Eng");
    assert form.formData == Typed && form.errors == map[];
    EmailSamples();
    assert FormValidAsWritten(form.formData, form.errors);
    TypedErrors();
    rejected := form.HandleSubmit();
    assert form.errors == map["email" := Some(EmailInvalid)];
    var r4 := form.HandleChange(EmailField, "ann@x.io");
    assert form.formData == Corrected;
    assert form.errors == map["email" := None];
    CorrectedPasses();
  }

  /** The scenario's form before and after the address is corrected. */
  const Typed := Step1Data("Ann", "ann@x", "Eng", DefaultRole, "")
  const Corrected := Step1Data("Ann", "ann@x.io", "Eng", DefaultRole, "")

  /** The strings of the scenario: all filled in, one malformed address and
      its correction. */
  lemma EmailSamples()
    ensures !Blank("Ann") && !Blank("ann@x") && !Blank("Eng") && !Blank("ann@x.io")
    ensures !ValidateEmail("ann@x") && ValidateEmail("ann@x.io")
  {
    assert !IsSpace("Ann"[0]) && !IsSpace("ann@x"[0]) && !IsSpace("Eng"[0]) && !IsSpace("ann@x.io"[0]);
    assert "ann"[..2] == "an" && "an"[..1] == "a" && "a"[..0] == [];
    assert EmailRun("ann") == Local;
    assert "ann@x"[..4] == "ann@" && "ann@"[..3] == "ann";
    assert EmailRun("ann@") == AfterAt;
    assert EmailRun("ann@x") == Domain;
    AcceptedOfShape("ann@x.io", "ann", "x", "io");
    RunClassifies("ann@x.io");
  }

  /** The typed form fails on its address alone. */
  lemma TypedErrors()
    ensures Step1Errors(Typed) == map["email" := Some(EmailInvalid)]
  {
    EmailSamples();
    assert Step1Message(Typed, "fullName") == None;
    assert Step1Message(Typed, "email") == Some(EmailInvalid);
    assert Step1Message(Typed, "department") == None;
    assert Step1Message(Typed, "role") == None;
    assert Step1Errors(Typed).Keys == {"email"};
  }

  /** The corrected form passes every check. */
  lemma CorrectedPasses()
    ensures Step1Passes(Corrected)
  {
    EmailSamples();
  }
}
