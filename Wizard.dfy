/** The wizard page (src/pages/wizard/index.tsx): the role taken from the
    `role` query parameter, the current step, the step-1 record handed from
    step 1 to step 2, and the two in-memory drafts that are restored from and
    saved to the role's draft store. */
module Wizard {
  import opened Js
  import opened EmployeeTypes
  import opened DraftStorage
  import Step1
  import Step2

  const DefaultRole := Role.Ops.Text()

  /** `searchParams.get("role") || "admin"`, then "ops" or "admin". */
  function RoleFromParam(param: Option<string>): (role: WizardRole)
    ensures role == OpsRole <==> param == Some("ops")
  {
    var roleParam := OrElse(param, "admin");
    if roleParam == "ops" then OpsRole else AdminRole
  }

  /** The record step 2 receives when no step-1 record was handed over: the
      step-1 draft's fields with "" (role "Ops") defaults and an empty ID. */
  function FallbackStep1(draft: Step1Partial): (d: Step1Data)
    ensures d.fullName == OrElse(draft.fullName, "") && d.email == OrElse(draft.email, "")
    ensures d.department == OrElse(draft.department, "") && d.role == OrElse(draft.role, DefaultRole)
    ensures d.employeeId == ""
  {
    Step1Data(OrElse(draft.fullName, ""), OrElse(draft.email, ""), OrElse(draft.department, ""),
              OrElse(draft.role, DefaultRole), "")
  }

  class WizardPage {
    const role: WizardRole
    var currentStep: int
    var step1Data: Option<Step1Data>
    var step1Draft: Step1Partial
    var step2Draft: Step2Partial

    /** The steps are 1 and 2, and an ops wizard is always on step 2. */
    predicate Valid()
      reads this
    {
      (currentStep == 1 || currentStep == 2) && (role == OpsRole ==> currentStep == 2)
    }

    constructor (param: Option<string>)
      ensures role == RoleFromParam(param)
      ensures currentStep == (if role == AdminRole then 1 else 2)
      ensures step1Data == None && step1Draft == NoStep1Fields && step2Draft == NoStep2Fields
      ensures Valid()
    {
      role := RoleFromParam(param);
      currentStep := if RoleFromParam(param) == AdminRole then 1 else 2;
      step1Data := None;
      step1Draft := NoStep1Fields;
      step2Draft := NoStep2Fields;
    }

    /** The effect that moves an ops wizard found on step 1 to step 2. */
    method EnforceOpsStep()
      modifies this
      ensures currentStep == (if role == OpsRole && old(currentStep) == 1 then 2 else old(currentStep))
      ensures step1Data == old(step1Data) && step1Draft == old(step1Draft) && step2Draft == old(step2Draft)
      ensures old(currentStep) == 1 || old(currentStep) == 2 ==> Valid()
    {
      if role == OpsRole && currentStep == 1 {
        currentStep := 2;
      }
    }

    /** `handleStep1Next`. */
    method HandleStep1Next(data: Step1Data)
      requires Valid()
      modifies this
      ensures step1Data == Some(data) && currentStep == 2
      ensures step1Draft == old(step1Draft) && step2Draft == old(step2Draft)
      ensures Valid()
    {
      step1Data := Some(data);
      currentStep := 2;
    }

    /** `handleStep1DataChange`: the draft is replaced, not merged. */
    method HandleStep1DataChange(data: Step1Partial)
      modifies this
      ensures step1Draft == data
      ensures currentStep == old(currentStep) && step1Data == old(step1Data) && step2Draft == old(step2Draft)
      ensures old(Valid()) ==> Valid()
    {
      step1Draft := data;
    }

    /** `handleStep2DataChange`. */
    method HandleStep2DataChange(data: Step2Partial)
      modifies this
      ensures step2Draft == data
      ensures currentStep == old(currentStep) && step1Data == old(step1Data) && step1Draft == old(step1Draft)
      ensures old(Valid()) ==> Valid()
    {
      step2Draft := data;
    }

    /** `handleClearDraft`: the role's stored draft and both in-memory drafts
        are emptied; the handed-over step-1 record is dropped only on
        step 1. */
    method HandleClearDraft(store: LocalStorage, storageThrows: bool)
      modifies this, store
      ensures store.items == if storageThrows then old(store.items) else Removed(old(store.items), role)
      ensures step1Draft == NoStep1Fields && step2Draft == NoStep2Fields
      ensures step1Data == if old(currentStep) == 1 then None else old(step1Data)
      ensures currentStep == old(currentStep)
      ensures old(Valid()) ==> Valid()
    {
      ClearDraft(store, role, storageThrows);
      step1Draft := NoStep1Fields;
      step2Draft := NoStep2Fields;
      if currentStep == 1 {
        step1Data := None;
      }
    }

    /** The restore effect: each part present in the loaded draft replaces
        the in-memory draft; with no draft nothing changes. */
    method ApplyRestoredDraft(restored: Option<DraftData>)
      modifies this
      ensures step1Draft == if restored.Some? && restored.value.step1.Some? then restored.value.step1.value else old(step1Draft)
      ensures step2Draft == if restored.Some? && restored.value.step2.Some? then restored.value.step2.value else old(step2Draft)
      ensures currentStep == old(currentStep) && step1Data == old(step1Data)
      ensures old(Valid()) ==> Valid()
    {
      if restored.Some? {
        if restored.value.step1.Some? {
          step1Draft := restored.value.step1.value;
        }
        if restored.value.step2.Some? {
          step2Draft := restored.value.step2.value;
        }
      }
    }

    /** `useDraftRestore(role)` followed by the restore effect. */
    method RestoreDraft(store: LocalStorage, storageThrows: bool)
      modifies this
      ensures var d := if storageThrows then None else Read(store.items, role);
              step1Draft == (if d.Some? && d.value.step1.Some? then d.value.step1.value else old(step1Draft)) &&
              step2Draft == (if d.Some? && d.value.step2.Some? then d.value.step2.value else old(step2Draft))
      ensures currentStep == old(currentStep) && step1Data == old(step1Data)
      ensures old(Valid()) ==> Valid()
    {
      var restored := LoadDraft(store, role, storageThrows);
      ApplyRestoredDraft(restored);
    }

    /** The save the auto-save hook schedules: both drafts under the role's
        key. The debounce delay is not modelled. */
    method AutoSave(store: LocalStorage, storageThrows: bool)
      modifies store
      ensures store.items == if storageThrows then old(store.items)
                             else Written(old(store.items), role, DraftData(Some(step1Draft), Some(step2Draft)))
    {
      SaveDraft(store, role, DraftData(Some(step1Draft), Some(step2Draft)), storageThrows);
    }

    /** Step 1 is rendered only for an admin on step 1. */
    function ShowsStep1(): (shown: bool)
      reads this
      ensures shown ==> role == AdminRole
      ensures shown <==> currentStep == 1 && role == AdminRole
    {
      currentStep == 1 && role == AdminRole
    }

    /** Step 2 is rendered on step 2, for either role; in a valid state it
        is shown exactly when step 1 is not. */
    function ShowsStep2(): (shown: bool)
      reads this
      ensures Valid() ==> (shown <==> !ShowsStep1())
      ensures shown <==> currentStep == 2
    {
      currentStep == 2
    }

    /** The `step1Data` prop of step 2. */
    function Step2Input(): (d: Step1Data)
      reads this
      ensures step1Data.Some? ==> d == step1Data.value
      ensures step1Data.None? ==> d == FallbackStep1(step1Draft)
    {
      match step1Data
      case Some(data) => data
      case None => FallbackStep1(step1Draft)
    }
  }

  /** In a valid state exactly one step is shown, and an ops wizard only
      ever shows step 2. */
  lemma OneStepShown(w: WizardPage)
    requires w.Valid()
    ensures w.ShowsStep1() != w.ShowsStep2()
    ensures w.role == OpsRole ==> !w.ShowsStep1() && w.ShowsStep2()
  {
  }

  /** Drafts saved by one wizard are what a wizard opened later for the same
      role restores. */
  method SaveThenReopen(store: LocalStorage, w: WizardPage) returns (reopened: WizardPage)
    modifies store
    ensures fresh(reopened) && reopened.role == w.role
    ensures reopened.step1Draft == w.step1Draft && reopened.step2Draft == w.step2Draft
    ensures reopened.Valid()
  {
    w.AutoSave(store, false);
    reopened := new WizardPage(Some(w.role.Text()));
    SaveThenLoad(old(store.items), w.role, DraftData(Some(w.step1Draft), Some(w.step2Draft)));
    reopened.RestoreDraft(store, false);
  }

  /** After clearing, a reopened wizard for the same role restores nothing and
      starts from empty drafts. */
  method ClearThenReopen(store: LocalStorage, w: WizardPage) returns (reopened: WizardPage)
    modifies store, w
    ensures fresh(reopened) && reopened.role == w.role
    ensures reopened.step1Draft == NoStep1Fields && reopened.step2Draft == NoStep2Fields
  {
    w.HandleClearDraft(store, false);
    reopened := new WizardPage(Some(w.role.Text()));
    ClearThenLoad(old(store.items), w.role);
    reopened.RestoreDraft(store, false);
  }

  /** The drafts a stored draft restores into, part by part, starting from
      the given in-memory parts. */
  function RestoredStep1(d: Option<DraftData>, current: Step1Partial): Step1Partial
  {
    if d.Some? && d.value.step1.Some? then d.value.step1.value else current
  }

  function RestoredStep2(d: Option<DraftData>, current: Step2Partial): Step2Partial
  {
    if d.Some? && d.value.step2.Some? then d.value.step2.value else current
  }

  /** Opening the wizard as its effects run. The shown step mounts on the
      in-memory draft, which is still empty, and its report effect hands
      that form to the wizard; the restore effect then installs the stored
      draft; the re-render gives the step a new change handler, so its
      report effect runs again and writes the mount-time form back over the
      restored part. The shown form never takes the stored draft, and only
      the part of the step not shown keeps what was restored. */
  method OpenWizard(store: LocalStorage, param: Option<string>, storageThrows: bool)
    returns (page: WizardPage, shown1: Option<Step1Data>, shown2: Option<Step2Data>)
    ensures fresh(page) && page.role == RoleFromParam(param) && page.Valid()
    ensures var d := if storageThrows then None else Read(store.items, page.role);
            if page.role == AdminRole then
              shown1 == Some(Step1.InitialStep1(Some(NoStep1Fields))) && shown2 == None &&
              page.step1Draft == shown1.value.ToPartial() &&
              page.step2Draft == RestoredStep2(d, NoStep2Fields)
            else
              shown2 == Some(Step2.InitialStep2(Some(NoStep2Fields))) && shown1 == None &&
              page.step2Draft == shown2.value.ToPartial() &&
              page.step1Draft == RestoredStep1(d, NoStep1Fields)
  {
    page := new WizardPage(param);
    if page.ShowsStep1() {
      var form := new Step1.Step1Form(Some(page.step1Draft));
      page.HandleStep1DataChange(form.formData.ToPartial());
      page.RestoreDraft(store, storageThrows);
      page.HandleStep1DataChange(form.formData.ToPartial());
      shown1, shown2 := Some(form.formData), None;
    } else {
      var form := new Step2.Step2Form(page.Step2Input(), Some(page.step2Draft));
      page.HandleStep2DataChange(form.formData.ToPartial());
      page.RestoreDraft(store, storageThrows);
      page.HandleStep2DataChange(form.formData.ToPartial());
      shown1, shown2 := None, Some(form.formData);
    }
  }

  /** Opening the wizard with the shown step mounted only once the stored
      draft has been restored: the form starts from the restored part, and
      its report hands that form back to the wizard. */
  method OpenWizardRestoringFirst(store: LocalStorage, param: Option<string>, storageThrows: bool)
    returns (page: WizardPage, shown1: Option<Step1Data>, shown2: Option<Step2Data>)
    ensures fresh(page) && page.role == RoleFromParam(param) && page.Valid()
    ensures var d := if storageThrows then None else Read(store.items, page.role);
            if page.role == AdminRole then
              shown1 == Some(Step1.InitialStep1(Some(RestoredStep1(d, NoStep1Fields)))) && shown2 == None &&
              page.step1Draft == shown1.value.ToPartial() &&
              page.step2Draft == RestoredStep2(d, NoStep2Fields)
            else
              shown2 == Some(Step2.InitialStep2(Some(RestoredStep2(d, NoStep2Fields)))) && shown1 == None &&
              page.step2Draft == shown2.value.ToPartial() &&
              page.step1Draft == RestoredStep1(d, NoStep1Fields)
  {
    page := new WizardPage(param);
    page.RestoreDraft(store, storageThrows);
    if page.ShowsStep1() {
      var form := new Step1.Step1Form(Some(page.step1Draft));
      page.HandleStep1DataChange(form.formData.ToPartial());
      shown1, shown2 := Some(form.formData), None;
    } else {
      var form := new Step2.Step2Form(page.Step2Input(), Some(page.step2Draft));
      page.HandleStep2DataChange(form.formData.ToPartial());
      shown1, shown2 := None, Some(form.formData);
    }
  }

  /** The step-1 form an admin saved in the scenarios below. */
  const SavedForm := Step1Data("Ann", "ann@x.io", "Eng", "Ops", "EMP-001")

  /** An admin's saved step-1 form is lost on reopening: the shown form is
      empty, and the next auto-save stores the empty form over the saved
      one. */
  method ReopenLosesSavedForm() returns (shown: Step1Data, stored: Option<DraftData>)
    ensures shown == Step1Data("", "", "", "Ops", "") && shown != SavedForm
    ensures stored == Some(DraftData(Some(shown.ToPartial()), Some(NoStep2Fields)))
  {
    var store := new LocalStorage(map[DraftAdminKey := Stored(DraftData(Some(SavedForm.ToPartial()), None))]);
    var page, shown1, shown2 := OpenWizard(store, None, false);
    shown := shown1.value;
    var before := store.items;
    page.AutoSave(store, false);
    SaveThenLoad(before, AdminRole, DraftData(Some(shown.ToPartial()), Some(NoStep2Fields)));
    stored := Read(store.items, AdminRole);
  }

  /** Mounted after the restore, the form shows the saved step-1 form, and
      the next auto-save stores it unchanged. */
  method ReopenKeepsSavedForm() returns (shown: Step1Data, stored: Option<DraftData>)
    ensures shown == SavedForm
    ensures stored == Some(DraftData(Some(SavedForm.ToPartial()), Some(NoStep2Fields)))
  {
    var store := new LocalStorage(map[DraftAdminKey := Stored(DraftData(Some(SavedForm.ToPartial()), None))]);
    var page, shown1, shown2 := OpenWizardRestoringFirst(store, None, false);
    Step1.InitialRestoresReported(SavedForm);
    shown := shown1.value;
    var before := store.items;
    page.AutoSave(store, false);
    SaveThenLoad(before, AdminRole, DraftData(Some(shown.ToPartial()), Some(NoStep2Fields)));
    stored := Read(store.items, AdminRole);
  }

  /** Mounted after the restore, a saved form that was reported by the step
      (so every field is present and its role is set) reappears as it was. */
  lemma RestoringFirstShowsReported(d: Step1Data, step2: Option<Step2Partial>)
    requires d.role != ""
    ensures Step1.InitialStep1(Some(RestoredStep1(Some(DraftData(Some(d.ToPartial()), step2)), NoStep1Fields))) == d
  {
    Step1.InitialRestoresReported(d);
  }

  /** A clear while step 1 is shown is undone by the re-render: the step's
      report effect writes its current form back into the step-1 draft, and
      the next auto-save stores that form under the role's key again. */
  method ClearWhileStep1Shown(page: WizardPage, form: Step1.Step1Form, store: LocalStorage)
    requires page.ShowsStep1()
    modifies page, store
    ensures page.step1Draft == form.formData.ToPartial() && page.step2Draft == NoStep2Fields
    ensures store.items == Written(Removed(old(store.items), page.role), page.role,
                                   DraftData(Some(form.formData.ToPartial()), Some(NoStep2Fields)))
  {
    page.HandleClearDraft(store, false);
    page.HandleStep1DataChange(form.formData.ToPartial());
    page.AutoSave(store, false);
  }
}
