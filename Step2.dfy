/** Step 2 of the wizard (src/pages/wizard/step2.tsx): the details form and
    its submission pipeline. A submission validates the form, posts the
    basic-info record and then the details record, and drives a five-stage
    progress list through pending, in-progress, completed and error. The two
    posts are outcome parameters; what was posted is returned as a log. */
module Step2 {
  import opened Js
  import opened EmployeeTypes
  import opened FormValidation
  import EmployeeList

  // ------------------------------------------------------------ progress

  datatype Status = Pending | InProgress | Completed | Error

  /** How far a status has come: pending, then in progress, then settled.
      Completed and Error share a rank, as both are settled, so `Advances`
      does not tell a failed stage from a finished one; `AttemptOutcomes`
      does. */
  function Rank(s: Status): nat
  {
    match s
    case Pending => 0
    case InProgress => 1
    case Completed => 2
    case Error => 2
  }

  /** A stage of the progress list; `caption` is the source's `label`. */
  datatype ProgressStep = ProgressStep(caption: string, status: Status)

  const StageLabels: seq<string> := [
    "Submitting basicInfo\U{2026}", "basicInfo saved!", "Submitting details\U{2026}",
    "details saved!", "All data processed successfully!"]

  /** The five stages with the given statuses. */
  function Progress(statuses: seq<Status>): (steps: seq<ProgressStep>)
    requires |statuses| == 5
    ensures |steps| == 5
    ensures forall i :: 0 <= i < 5 ==> steps[i] == ProgressStep(StageLabels[i], statuses[i])
  {
    seq(5, i requires 0 <= i < 5 => ProgressStep(StageLabels[i], statuses[i]))
  }

  function Statuses(steps: seq<ProgressStep>): (ss: seq<Status>)
    ensures |ss| == |steps| && forall i :: 0 <= i < |steps| ==> ss[i] == steps[i].status
  {
    seq(|steps|, i requires 0 <= i < |steps| => steps[i].status)
  }

  const InitialProgress := Progress([Pending, Pending, Pending, Pending, Pending])
  const StartedProgress := Progress([InProgress, Pending, Pending, Pending, Pending])

  /** The updater applied once the basic-info post resolves. */
  function AfterBasicInfo(prev: seq<ProgressStep>): (next: seq<ProgressStep>)
    requires |prev| == 5
    ensures |next| == 5
    ensures forall i :: 0 <= i < 5 ==> next[i].caption == prev[i].caption
    ensures next[0].status == Completed && next[1].status == Completed && next[2].status == InProgress
    ensures next[3] == prev[3] && next[4] == prev[4]
  {
    prev[0 := prev[0].(status := Completed)][1 := prev[1].(status := Completed)][2 := prev[2].(status := InProgress)]
  }

  /** The updater applied once the details post resolves. */
  function AfterDetails(prev: seq<ProgressStep>): (next: seq<ProgressStep>)
    requires |prev| == 5
    ensures |next| == 5
    ensures forall i :: 0 <= i < 5 ==> next[i].caption == prev[i].caption
    ensures next[0] == prev[0] && next[1] == prev[1]
    ensures next[2].status == Completed && next[3].status == Completed && next[4].status == Completed
  {
    prev[2 := prev[2].(status := Completed)][3 := prev[3].(status := Completed)][4 := prev[4].(status := Completed)]
  }

  /** `findIndex(step => step.status === "in-progress")`: the first
      in-progress stage, or -1. */
  function FirstInProgress(steps: seq<ProgressStep>): (k: int)
    ensures -1 <= k < |steps|
    ensures k >= 0 ==> steps[k].status == InProgress
    ensures forall j :: 0 <= j < |steps| && (k == -1 || j < k) ==> steps[j].status != InProgress
    decreases |steps|
  {
    if steps == [] then -1
    else if steps[0].status == InProgress then 0
    else
      var k := FirstInProgress(steps[1..]);
      if k == -1 then -1 else k + 1
  }

  /** The updater of the `catch` branch: the first in-progress stage becomes
      an error; every other stage, and a list with none in progress, stays. */
  function MarkFailed(prev: seq<ProgressStep>): (next: seq<ProgressStep>)
    ensures |next| == |prev|
    ensures forall i :: 0 <= i < |prev| && i != FirstInProgress(prev) ==> next[i] == prev[i]
    ensures FirstInProgress(prev) >= 0 ==>
              next[FirstInProgress(prev)] == ProgressStep(prev[FirstInProgress(prev)].caption, Error)
  {
    var k := FirstInProgress(prev);
    if k == -1 then prev else prev[k := prev[k].(status := Error)]
  }

  /** The progress lists one valid submission passes through, from the
      reset to where it settles. */
  function AttemptTrace(basicInfoOk: bool, detailsOk: bool): seq<seq<ProgressStep>>
  {
    var started := StartedProgress;
    if !basicInfoOk then [started, MarkFailed(started)]
    else
      var saved := AfterBasicInfo(started);
      if !detailsOk then [started, saved, MarkFailed(saved)]
      else [started, saved, AfterDetails(saved)]
  }

  /** Same labels, and no stage moves back. */
  predicate Advances(a: seq<ProgressStep>, b: seq<ProgressStep>)
  {
    |a| == |b| && forall i :: 0 <= i < |a| ==> a[i].caption == b[i].caption && Rank(a[i].status) <= Rank(b[i].status)
  }

  predicate AtMostOneInProgress(steps: seq<ProgressStep>)
  {
    forall i, j :: 0 <= i < j < |steps| && steps[i].status == InProgress ==> steps[j].status != InProgress
  }

  /** Where an attempt settles: an error on the basic-info stage, an error on
      the details stage after the first two completed, or all five
      completed. */
  lemma AttemptOutcomes(basicInfoOk: bool, detailsOk: bool)
    ensures var t := AttemptTrace(basicInfoOk, detailsOk);
            t[0] == StartedProgress &&
            Statuses(t[|t| - 1]) ==
              if !basicInfoOk then [Error, Pending, Pending, Pending, Pending]
              else if !detailsOk then [Completed, Completed, Error, Pending, Pending]
              else [Completed, Completed, Completed, Completed, Completed]
  {
    var started := StartedProgress;
    assert FirstInProgress(started) == 0;
    if basicInfoOk {
      var saved := AfterBasicInfo(started);
      assert saved[2].status == InProgress;
      assert FirstInProgress(saved) == 2 by {
        assert saved[0].status != InProgress && saved[1].status != InProgress;
      }
    }
  }

  /** Through an attempt every stage keeps its label, only moves forward and
      at most one stage is in progress at a time. */
  lemma {:induction false} AttemptMovesForward(basicInfoOk: bool, detailsOk: bool)
    ensures var t := AttemptTrace(basicInfoOk, detailsOk);
            (forall i :: 0 <= i < |t| - 1 ==> Advances(t[i], t[i + 1])) &&
            (forall i :: 0 <= i < |t| ==> AtMostOneInProgress(t[i]))
  {
    var started := StartedProgress;
    var saved := AfterBasicInfo(started);
    StartedFacts();
    SavedFacts();
    MarkFailedAdvances(started);
    AtMostOneAfterFailure(started);
    if !basicInfoOk {
      assert AttemptTrace(basicInfoOk, detailsOk) == [started, MarkFailed(started)];
    } else if !detailsOk {
      MarkFailedAdvances(saved);
      AtMostOneAfterFailure(saved);
      assert AttemptTrace(basicInfoOk, detailsOk) == [started, saved, MarkFailed(saved)];
    } else {
      DoneFacts();
      assert AttemptTrace(basicInfoOk, detailsOk) == [started, saved, AfterDetails(saved)];
    }
  }

  /** The reset list: stage 0 alone is in progress. */
  lemma StartedFacts()
    ensures |StartedProgress| == 5 && FirstInProgress(StartedProgress) == 0
    ensures AtMostOneInProgress(StartedProgress)
  {
    assert StartedProgress[0].status == InProgress;
  }

  /** After the basic-info post: stage 2 alone is in progress. */
  lemma SavedFacts()
    ensures var saved := AfterBasicInfo(StartedProgress);
            Advances(StartedProgress, saved) && AtMostOneInProgress(saved) && FirstInProgress(saved) == 2
  {
    var started := StartedProgress;
    var saved := AfterBasicInfo(started);
    assert Statuses(saved) == [Completed, Completed, InProgress, Pending, Pending];
    assert saved[0].status != InProgress && saved[1].status != InProgress && saved[2].status == InProgress;
  }

  /** After the details post: everything is completed. */
  lemma DoneFacts()
    ensures var saved := AfterBasicInfo(StartedProgress);
            Advances(saved, AfterDetails(saved)) && AtMostOneInProgress(AfterDetails(saved))
  {
    var saved := AfterBasicInfo(StartedProgress);
    assert Statuses(saved) == [Completed, Completed, InProgress, Pending, Pending];
  }

  lemma MarkFailedAdvances(prev: seq<ProgressStep>)
    ensures Advances(prev, MarkFailed(prev))
  {
  }

  /** Marking the failure leaves no stage in progress when only one was. */
  lemma AtMostOneAfterFailure(prev: seq<ProgressStep>)
    requires AtMostOneInProgress(prev)
    ensures AtMostOneInProgress(MarkFailed(prev))
    ensures forall i :: 0 <= i < |prev| ==> MarkFailed(prev)[i].status != InProgress
  {
  }

  // ------------------------------------------------------------- payloads

  /** The record `postBasicInfo` receives: the five step-1 fields. */
  function BasicInfoPayload(s: Step1Data): (b: BasicInfo)
    ensures b.fullName == s.fullName && b.email == s.email && b.department == s.department
    ensures b.role == s.role && b.employeeId == s.employeeId
  {
    BasicInfo(s.fullName, s.email, s.department, s.role, s.employeeId)
  }

  /** The record `postDetails` receives: step 1's ID and email with this
      form's fields. */
  function DetailsPayload(s: Step1Data, form: Step2Data): (d: Details)
    ensures d.employeeId == s.employeeId && d.email == s.email
    ensures d.employmentType == form.employmentType && d.officeLocation == form.officeLocation
    ensures d.notes == form.notes && d.photo == Some(form.photo)
  {
    Details(s.employeeId, s.email, form.employmentType, form.officeLocation, form.notes, Some(form.photo))
  }

  /** The two records of one submission join into one row of the employee
      list that carries every field the wizard collected. */
  lemma SubmittedRecordsJoin(s: Step1Data, form: Step2Data)
    ensures EmployeeList.Merge([BasicInfoPayload(s)], [DetailsPayload(s, form)]) ==
            [Employee(s.fullName, s.email, s.department, s.role, s.employeeId,
                      Some(form.employmentType), Some(form.officeLocation), Some(form.notes), Some(form.photo))]
  {
    var b, d := BasicInfoPayload(s), DetailsPayload(s, form);
    assert EmployeeList.FirstMatch([d], b) == 0;
    assert EmployeeList.FindDetail([d], b) == Some(d);
    var m := EmployeeList.MergeBasic([b], [d]);
    assert m == [EmployeeList.WithDetail(b, Some(d))];
    assert EmployeeList.EntryMatches(m[0], d);
    assert EmployeeList.AppendIfUnmatched(m, d) == m;
    assert [d][1..] == [];
    assert EmployeeList.AppendUnmatched(m, [d]) == EmployeeList.AppendUnmatched(m, []);
  }

  datatype RemoteCall = PostBasicInfo(basic: BasicInfo) | PostDetails(details: Details)

  // ----------------------------------------------------------------- form

  const EmployeesRoute := "/employees"
  const DefaultEmploymentType := EmploymentType.FullTime.Text()

  /** The form fields a change handler can name. */
  datatype Step2Field = EmploymentTypeField | OfficeLocationField | NotesField | PhotoField
  {
    function Key(): string
    {
      match this
      case EmploymentTypeField => "employmentType"
      case OfficeLocationField => "officeLocation"
      case NotesField => "notes"
      case PhotoField => "photo"
    }
  }

  function SetField(data: Step2Data, field: Step2Field, value: string): (r: Step2Data)
    ensures field == EmploymentTypeField ==> r == data.(employmentType := value)
    ensures field == OfficeLocationField ==> r == data.(officeLocation := value)
    ensures field == NotesField ==> r == data.(notes := value)
    ensures field == PhotoField ==> r == data.(photo := value)
  {
    match field
    case EmploymentTypeField => data.(employmentType := value)
    case OfficeLocationField => data.(officeLocation := value)
    case NotesField => data.(notes := value)
    case PhotoField => data.(photo := value)
  }

  /** The initial form state: each field from the initial data when it is
      a non-empty string, otherwise "Full-time" or "". */
  function InitialStep2(initial: Option<Step2Partial>): (d: Step2Data)
    ensures initial.None? ==> d == Step2Data(DefaultEmploymentType, "", "", "")
    ensures initial.Some? ==>
              d.employmentType == OrElse(initial.value.employmentType, DefaultEmploymentType) &&
              d.officeLocation == OrElse(initial.value.officeLocation, "") &&
              d.notes == OrElse(initial.value.notes, "") &&
              d.photo == OrElse(initial.value.photo, "")
  {
    match initial
    case None => Step2Data(DefaultEmploymentType, "", "", "")
    case Some(p) =>
      Step2Data(OrElse(p.employmentType, DefaultEmploymentType), OrElse(p.officeLocation, ""),
                OrElse(p.notes, ""), OrElse(p.photo, ""))
  }

  /** A form reported to the wizard and handed back as initial data comes
      back unchanged, except that an empty employment type becomes the
      default. */
  lemma InitialRestoresReported(d: Step2Data)
    ensures InitialStep2(Some(d.ToPartial())) ==
            d.(employmentType := if d.employmentType == "" then DefaultEmploymentType else d.employmentType)
  {
  }

  /** `isFormValid`: an employment type, a non-blank location, no error
      key at all. */
  predicate FormValid(data: Step2Data, errors: Errors)
  {
    data.employmentType != "" && !Blank(data.officeLocation) && |errors| == 0
  }

  /** The button guard implies every check of `validateStep2`, so a submit
      from the enabled button never fails validation. */
  lemma GuardImpliesValidation(data: Step2Data, errors: Errors)
    requires FormValid(data, errors)
    ensures Step2Errors(data) == map[]
  {
    Step2ErrorsFacts(data);
  }

  class Step2Form {
    var step1Data: Step1Data
    var formData: Step2Data
    var errors: Errors
    var isSubmitting: bool
    var progress: seq<ProgressStep>
    /** The route the delayed `navigate` is scheduled for, if any. */
    var navigation: Option<string>
    /** The progress lists the last submission passed through. */
    ghost var trace: seq<seq<ProgressStep>>

    constructor (step1: Step1Data, initial: Option<Step2Partial>)
      ensures step1Data == step1 && formData == InitialStep2(initial)
      ensures errors == map[] && !isSubmitting && progress == InitialProgress
      ensures navigation == None && trace == []
    {
      step1Data := step1;
      formData := InitialStep2(initial);
      errors := map[];
      isSubmitting := false;
      progress := InitialProgress;
      navigation := None;
      trace := [];
    }

    /** `isFormValid`: any stored error key makes the form invalid, and a
        valid form passes every check of `validateStep2`. */
    function IsFormValid(): (valid: bool)
      reads this
      ensures |errors| > 0 ==> !valid
      ensures valid ==> Step2Errors(formData) == map[]
      ensures valid <==> FormValid(formData, errors)
    {
      if FormValid(formData, errors) then GuardImpliesValidation(formData, errors); true else false
    }

    /** `disabled={!isFormValid || isSubmitting}`: the button is off while a
        submission runs, and when it is on, the submit passes validation. */
    function SubmitDisabled(): (disabled: bool)
      reads this
      ensures isSubmitting ==> disabled
      ensures !disabled ==> errors == map[] && Step2Errors(formData) == map[]
      ensures disabled <==> !IsFormValid() || isSubmitting
    {
      !IsFormValid() || isSubmitting
    }

    /** `handleChange`: the one field is replaced; an error message that is
        set is emptied but its key stays. Returns what the data-change
        effect reports to the wizard. */
    method HandleChange(field: Step2Field, value: string) returns (reported: Step2Partial)
      modifies this
      ensures formData == SetField(old(formData), field, value)
      ensures errors == if field.Key() in old(errors) && Truthy(old(errors)[field.Key()])
                        then old(errors)[field.Key() := Some("")] else old(errors)
      ensures errors.Keys == old(errors.Keys)
      ensures reported == formData.ToPartial()
      ensures step1Data == old(step1Data) && isSubmitting == old(isSubmitting) && progress == old(progress)
      ensures navigation == old(navigation) && trace == old(trace)
    {
      formData := SetField(formData, field, value);
      var key := field.Key();
      if key in errors && Truthy(errors[key]) {
        errors := errors[key := Some("")];
      }
      reported := formData.ToPartial();
    }

    /** `handleLocationSelect`: the location's name goes into the field, with
        the error handling of `handleChange`. */
    method HandleLocationSelect(location: Location) returns (reported: Step2Partial)
      modifies this
      ensures formData == old(formData).(officeLocation := location.name)
      ensures errors == if "officeLocation" in old(errors) && Truthy(old(errors)["officeLocation"])
                        then old(errors)["officeLocation" := Some("")] else old(errors)
      ensures errors.Keys == old(errors.Keys)
      ensures reported == formData.ToPartial()
      ensures step1Data == old(step1Data) && isSubmitting == old(isSubmitting) && progress == old(progress)
      ensures navigation == old(navigation) && trace == old(trace)
    {
      reported := HandleChange(OfficeLocationField, location.name);
    }

    /** `handleSubmit`. A failing validation stores its errors and does
        nothing else. Otherwise the progress restarts, basic info is posted,
        and only after it resolved are the details posted; a failure marks
        the stage then in progress as an error and re-enables the form,
        while full success schedules the move to the employee list and
        leaves `isSubmitting` set. */
    method HandleSubmit(basicInfoOk: bool, detailsOk: bool) returns (calls: seq<RemoteCall>)
      modifies this
      ensures var ve := Step2Errors(old(formData));
              ve != map[] ==>
                errors == ve && calls == [] && isSubmitting == old(isSubmitting) &&
                progress == old(progress) && navigation == old(navigation) && trace == old(trace)
      ensures Step2Errors(old(formData)) == map[] ==>
                errors == old(errors) &&
                calls == (if basicInfoOk
                          then [PostBasicInfo(BasicInfoPayload(step1Data)), PostDetails(DetailsPayload(step1Data, formData))]
                          else [PostBasicInfo(BasicInfoPayload(step1Data))]) &&
                trace == AttemptTrace(basicInfoOk, detailsOk) && progress == trace[|trace| - 1] &&
                isSubmitting == (basicInfoOk && detailsOk) &&
                navigation == (if basicInfoOk && detailsOk then Some(EmployeesRoute) else old(navigation))
      ensures formData == old(formData) && step1Data == old(step1Data)
    {
      var validationErrors := ValidateStep2(formData);
      if |validationErrors| > 0 {
        assert validationErrors != map[];
        errors := validationErrors;
        calls := [];
        return;
      }
      assert validationErrors == map[];
      isSubmitting := true;
      var started := StartedProgress;
      progress := started;
      trace := [started];
      calls := [PostBasicInfo(BasicInfoPayload(step1Data))];
      if !basicInfoOk {
        progress := MarkFailed(started);
        trace := [started, progress];
        isSubmitting := false;
        return;
      }
      var saved := AfterBasicInfo(started);
      progress := saved;
      trace := [started, saved];
      calls := calls + [PostDetails(DetailsPayload(step1Data, formData))];
      if !detailsOk {
        progress := MarkFailed(saved);
        trace := [started, saved, progress];
        isSubmitting := false;
        return;
      }
      progress := AfterDetails(saved);
      trace := [started, saved, progress];
      navigation := Some(EmployeesRoute);
    }
  }

  /** Once an error key is stored nothing in the form removes it, so the
      form never becomes valid again, whatever is typed. */
  lemma ErrorKeysBlockForever(data: Step2Data, errors: Errors, field: Step2Field, value: string)
    requires |errors| > 0
    ensures var e := if field.Key() in errors && Truthy(errors[field.Key()])
                     then errors[field.Key() := Some("")] else errors;
            |e| > 0 && !FormValid(SetField(data, field, value), e)
  {
    var e := if field.Key() in errors && Truthy(errors[field.Key()])
             then errors[field.Key() := Some("")] else errors;
    assert e.Keys == errors.Keys;
  }
}
