/** Field validation of the two wizard steps (src/hooks/useFormValidation.ts).
    The e-mail pattern `/^[^\s@]+@[^\s@]+\.[^\s@]+$/` is run as a
    deterministic automaton, proved to accept exactly the strings
    `L + "@" + D + "." + T` with non-empty parts free of whitespace and '@'. */
module FormValidation {
  import opened Js
  import opened EmployeeTypes

  // ---------------------------------------------------------------- e-mail

  /** A character of the class `[^\s@]`. */
  predicate EmailChar(c: char)
  {
    !IsSpace(c) && c != '@'
  }

  predicate EmailChars(s: string)
  {
    forall i :: 0 <= i < |s| ==> EmailChar(s[i])
  }

  /** The pattern's language: three non-empty runs of `[^\s@]` joined by
      "@" and ".". The domain part may itself contain dots. */
  ghost predicate EmailShape(s: string)
  {
    exists l: string, d: string, t: string ::
      |l| > 0 && |d| > 0 && |t| > 0 && EmailChars(l) && EmailChars(d) && EmailChars(t) &&
      s == l + "@" + d + "." + t
  }

  /** States of the automaton: nothing read, inside the local part, just
      after "@", inside the domain with no usable dot yet, right after a
      usable dot, inside the last part (accepting), and rejected. */
  datatype EmailState = Start | Local | AfterAt | Domain | DomainDot | Accept | Dead

  function EmailStep(q: EmailState, c: char): EmailState
  {
    if !EmailChar(c) then
      (if q == Local && c == '@' then AfterAt else Dead)
    else
      match q
      case Start => Local
      case Local => Local
      case AfterAt => Domain
      case Domain => if c == '.' then DomainDot else Domain
      case DomainDot => Accept
      case Accept => Accept
      case Dead => Dead
  }

  function EmailRun(s: string): EmailState
    decreases |s|
  {
    if s == [] then Start else EmailStep(EmailRun(s[..|s| - 1]), s[|s| - 1])
  }

  /** `validateEmail`. */
  predicate ValidateEmail(email: string)
  {
    EmailRun(email) == Accept
  }

  /** Index of the first '@', or `|s|` when there is none. */
  function FirstAt(s: string): (k: nat)
    ensures k <= |s|
    ensures k < |s| ==> s[k] == '@'
    ensures forall i :: 0 <= i < k ==> s[i] != '@'
  {
    if s == [] then 0 else if s[0] == '@' then 0 else 1 + FirstAt(s[1..])
  }

  /** The state reached on a domain part `r` (the text after the first "@")
      made only of `[^\s@]`. */
  ghost function DomainClass(r: string): EmailState
  {
    if r == [] then AfterAt
    else if exists j :: 1 <= j <= |r| - 2 && r[j] == '.' then Accept
    else if |r| >= 2 && r[|r| - 1] == '.' then DomainDot
    else Domain
  }

  /** What the automaton's state means, stated on the text read so far. */
  ghost function Classify(p: string): EmailState
  {
    if p == [] then Start
    else if EmailChars(p) then Local
    else
      var k := FirstAt(p);
      if 0 < k < |p| && EmailChars(p[..k]) && EmailChars(p[k + 1..]) then DomainClass(p[k + 1..])
      else Dead
  }

  lemma DomainClassStep(r: string, c: char)
    requires EmailChar(c)
    ensures DomainClass(r + [c]) == EmailStep(DomainClass(r), c)
  {
    var r' := r + [c];
    if r == [] {
      assert r' == [c];
    } else if DomainClass(r) == Accept {
      var j :| 1 <= j <= |r| - 2 && r[j] == '.';
      assert r'[j] == '.';
    } else if DomainClass(r) == DomainDot {
      assert r'[|r| - 1] == '.';
    } else {
      assert forall j :: 1 <= j < |r| ==> r[j] != '.';
      assert forall j :: 1 <= j <= |r'| - 2 ==> r'[j] == r[j];
    }
  }

  lemma SliceOfAppend(q: string, c: char, i: nat)
    requires i <= |q|
    ensures (q + [c])[i..] == q[i..] + [c]
  {
    assert |(q + [c])[i..]| == |q[i..] + [c]|;
    forall j | 0 <= j < |q[i..] + [c]| ensures (q + [c])[i..][j] == (q[i..] + [c])[j] {
      if j < |q| - i { assert (q + [c])[i + j] == q[i + j]; }
    }
  }

  lemma StepClassifies(q: string, c: char)
    ensures Classify(q + [c]) == EmailStep(Classify(q), c)
  {
    var p := q + [c];
    if q == [] {
      assert p == [c];
      if !EmailChar(c) {
        assert !EmailChar(p[0]);
      }
    } else if EmailChars(q) {
      StepFromLocal(q, c);
    } else if FirstAt(q) < |q| {
      StepAfterAt(q, c);
    } else {
      StepWithoutAt(q, c);
    }
  }

  /** A step out of the local part. */
  lemma StepFromLocal(q: string, c: char)
    requires q != [] && EmailChars(q)
    ensures Classify(q + [c]) == EmailStep(Local, c)
  {
    var p := q + [c];
    if EmailChar(c) {
      assert EmailChars(p);
    } else {
      assert !EmailChars(p) by { assert !EmailChar(p[|q|]); }
      if c == '@' {
        assert FirstAt(p) == |q|;
        assert p[..|q|] == q;
        assert p[|q| + 1..] == [];
      }
    }
  }

  /** A step after an "@" has been read. */
  lemma StepAfterAt(q: string, c: char)
    requires q != [] && !EmailChars(q) && FirstAt(q) < |q|
    ensures Classify(q + [c]) == EmailStep(Classify(q), c)
  {
    var p := q + [c];
    var k := FirstAt(q);
    CharsAppend(q, c);
    FirstAtAppend(q, c);
    assert p[..k] == q[..k];
    SliceOfAppend(q, c, k + 1);
    var r := q[k + 1..];
    ClassifyAt(q, k);
    ClassifyAt(p, k);
    DomainStep(r, c, 0 < k && EmailChars(q[..k]));
  }

  /** The step on the domain part, given whether the local part is valid. */
  lemma DomainStep(r: string, c: char, localOk: bool)
    ensures (if localOk && EmailChars(r + [c]) then DomainClass(r + [c]) else Dead) ==
            EmailStep(if localOk && EmailChars(r) then DomainClass(r) else Dead, c)
  {
    CharsAppend(r, c);
    if localOk && EmailChars(r) && EmailChar(c) {
      DomainClassStep(r, c);
    }
  }

  /** Appending keeps the first "@". */
  lemma FirstAtAppend(q: string, c: char)
    requires FirstAt(q) < |q|
    ensures FirstAt(q + [c]) == FirstAt(q)
  {
    var p, k := q + [c], FirstAt(q);
    assert p[k] == '@';
    assert forall i :: 0 <= i < k ==> p[i] == q[i];
  }

  /** A text that is not all `[^\s@]` is classified by its first "@". */
  lemma ClassifyAt(p: string, k: nat)
    requires p != [] && !EmailChars(p) && FirstAt(p) == k
    ensures Classify(p) == if 0 < k < |p| && EmailChars(p[..k]) && EmailChars(p[k + 1..])
                           then DomainClass(p[k + 1..]) else Dead
  {
  }

  lemma CharsAppend(r: string, c: char)
    ensures EmailChars(r + [c]) <==> EmailChars(r) && EmailChar(c)
  {
    var r' := r + [c];
    assert r'[|r|] == c;
    assert forall i :: 0 <= i < |r| ==> r'[i] == r[i];
  }

  /** A step from a dead state that has read no "@". */
  lemma StepWithoutAt(q: string, c: char)
    requires q != [] && !EmailChars(q) && FirstAt(q) == |q|
    ensures Classify(q + [c]) == EmailStep(Classify(q), c)
  {
    var p := q + [c];
    assert !EmailChars(p) by {
      var i :| 0 <= i < |q| && !EmailChar(q[i]);
      assert p[i] == q[i];
    }
    assert forall i :: 0 <= i < |q| ==> p[i] == q[i] && p[i] != '@';
    if c == '@' {
      assert p[|q|] == '@';
      assert FirstAt(p) == |q|;
      assert p[..|q|] == q;
    } else {
      assert FirstAt(p) == |p|;
    }
  }

  lemma {:induction false} RunClassifies(p: string)
    ensures EmailRun(p) == Classify(p)
    decreases |p|
  {
    if p != [] {
      var q, c := p[..|p| - 1], p[|p| - 1];
      RunClassifies(q);
      assert p == q + [c];
      StepClassifies(q, c);
    }
  }

  /** A string is its prefix, the character at `k` and its suffix. */
  lemma AroundIndex(s: string, k: nat)
    requires k < |s|
    ensures s == s[..k] + [s[k]] + s[k + 1..]
  {
  }

  /** Both sides of a position in a run of `[^\s@]` are runs of it. */
  lemma CharsAroundIndex(r: string, j: nat)
    requires j < |r| && EmailChars(r)
    ensures EmailChars(r[..j]) && EmailChars(r[j + 1..])
  {
    CharsOfSuffix(r, r[j + 1..], j + 1);
  }

  lemma CharsOfSuffix(r: string, t: string, m: nat)
    requires m <= |r| && t == r[m..] && EmailChars(r)
    ensures EmailChars(t)
  {
    forall i | 0 <= i < |t| ensures EmailChar(t[i]) {
      assert t[i] == r[m + i];
    }
  }

  /** What `Classify(s) == Accept` says about the first "@". */
  lemma AcceptedSplit(s: string)
    requires Classify(s) == Accept
    ensures 0 < FirstAt(s) < |s| && s[FirstAt(s)] == '@'
    ensures EmailChars(s[..FirstAt(s)]) && EmailChars(s[FirstAt(s) + 1..])
    ensures DomainClass(s[FirstAt(s) + 1..]) == Accept
  {
    assert s != [] && !EmailChars(s);
  }

  lemma ShapeOfAccepted(s: string)
    requires Classify(s) == Accept
    ensures EmailShape(s)
  {
    AcceptedSplit(s);
    var k := FirstAt(s);
    var l, r := s[..k], s[k + 1..];
    AroundIndex(s, k);
    var j :| 1 <= j <= |r| - 2 && r[j] == '.';
    var d, t := r[..j], r[j + 1..];
    AroundIndex(r, j);
    CharsAroundIndex(r, j);
    ShapeOfParts(s, l, d, t);
  }

  lemma ShapeOfParts(s: string, l: string, d: string, t: string)
    requires |l| > 0 && |d| > 0 && |t| > 0 && EmailChars(l) && EmailChars(d) && EmailChars(t)
    requires s == l + "@" + (d + "." + t)
    ensures EmailShape(s)
  {
    assert s == l + "@" + d + "." + t;
  }

  lemma AcceptedOfShape(s: string, l: string, d: string, t: string)
    requires |l| > 0 && |d| > 0 && |t| > 0 && EmailChars(l) && EmailChars(d) && EmailChars(t)
    requires s == l + "@" + d + "." + t
    ensures Classify(s) == Accept
  {
    var r := d + "." + t;
    assert s == l + "@" + r;
    assert s[|l|] == '@';
    assert forall i :: 0 <= i < |l| ==> s[i] == l[i];
    assert FirstAt(s) == |l|;
    assert s[..|l|] == l;
    assert s[|l| + 1..] == r;
    assert !EmailChars(s) by { assert !EmailChar(s[|l|]); }
    assert EmailChars(r) by {
      forall i | 0 <= i < |r| ensures EmailChar(r[i]) {
        if i < |d| { assert r[i] == d[i]; }
        else if i > |d| { assert r[i] == t[i - |d| - 1]; }
      }
    }
    assert r[|d|] == '.';
    assert 1 <= |d| <= |r| - 2;
  }

  /** `validateEmail(s)` holds exactly for the strings of the pattern's
      language. */
  lemma ValidateEmailMeansShape(s: string)
    ensures ValidateEmail(s) <==> EmailShape(s)
  {
    RunClassifies(s);
    if Classify(s) == Accept {
      ShapeOfAccepted(s);
    }
    if EmailShape(s) {
      var l: string, d: string, t: string :|
        |l| > 0 && |d| > 0 && |t| > 0 && EmailChars(l) && EmailChars(d) && EmailChars(t) &&
        s == l + "@" + d + "." + t;
      AcceptedOfShape(s, l, d, t);
    }
  }

  // ------------------------------------------------------------- messages

  const FullNameRequired := "Full name is required"
  const EmailRequired := "Email is required"
  const EmailInvalid := "Please enter a valid email address"
  const DepartmentRequired := "Department is required"
  const RoleRequired := "Role is required"
  const EmploymentTypeRequired := "Employment type is required"
  const OfficeLocationRequired := "Office location is required"

  // --------------------------------------------------------------- step 1

  const Step1Fields: set<string> := {"fullName", "email", "department", "role"}

  /** The message step-1 validation gives `field`, or `None` when it passes. */
  function Step1Message(data: Step1Data, field: string): Option<string>
  {
    if field == "fullName" then
      (if Blank(data.fullName) then Some(FullNameRequired) else None)
    else if field == "email" then
      (if Blank(data.email) then Some(EmailRequired)
       else if !ValidateEmail(data.email) then Some(EmailInvalid)
       else None)
    else if field == "department" then
      (if Blank(data.department) then Some(DepartmentRequired) else None)
    else if field == "role" then
      (if data.role == "" then Some(RoleRequired) else None)
    else None
  }

  /** The error dictionary of step 1: one entry per failing field. */
  function Step1Errors(data: Step1Data): Errors
  {
    map f | f in Step1Fields && Step1Message(data, f).Some? :: Step1Message(data, f)
  }

  /** Every step-1 check passes. */
  predicate Step1Passes(data: Step1Data)
  {
    !Blank(data.fullName) && !Blank(data.email) && ValidateEmail(data.email) &&
    !Blank(data.department) && data.role != ""
  }

  /** `validateStep1`: successive conditional assignments to `errors`. */
  method ValidateStep1(data: Step1Data) returns (errors: Errors)
    ensures errors == Step1Errors(data)
  {
    errors := map[];
    if Blank(data.fullName) {
      errors := errors["fullName" := Some(FullNameRequired)];
    }
    if Blank(data.email) {
      errors := errors["email" := Some(EmailRequired)];
    } else if !ValidateEmail(data.email) {
      errors := errors["email" := Some(EmailInvalid)];
    }
    if Blank(data.department) {
      errors := errors["department" := Some(DepartmentRequired)];
    }
    if data.role == "" {
      errors := errors["role" := Some(RoleRequired)];
    }
    assert errors == Step1Errors(data) by {
      assert Step1Message(data, "fullName") == (if Blank(data.fullName) then Some(FullNameRequired) else None);
      assert Step1Message(data, "department") == (if Blank(data.department) then Some(DepartmentRequired) else None);
      assert Step1Message(data, "role") == (if data.role == "" then Some(RoleRequired) else None);
      assert errors.Keys == Step1Errors(data).Keys;
    }
  }

  lemma Step1ErrorsFacts(data: Step1Data)
    ensures Step1Errors(data).Keys <= Step1Fields
    ensures Step1Errors(data) == map[] <==> Step1Passes(data)
    ensures "fullName" in Step1Errors(data) <==> Blank(data.fullName)
    ensures "email" in Step1Errors(data) <==> Blank(data.email) || !ValidateEmail(data.email)
    ensures "email" in Step1Errors(data) ==>
              Step1Errors(data)["email"] == Some(if Blank(data.email) then EmailRequired else EmailInvalid)
    ensures "department" in Step1Errors(data) <==> Blank(data.department)
    ensures "role" in Step1Errors(data) <==> data.role == ""
    ensures "fullName" in Step1Errors(data) ==> Step1Errors(data)["fullName"] == Some(FullNameRequired)
    ensures "department" in Step1Errors(data) ==> Step1Errors(data)["department"] == Some(DepartmentRequired)
    ensures "role" in Step1Errors(data) ==> Step1Errors(data)["role"] == Some(RoleRequired)
    ensures forall f :: f in Step1Errors(data) ==> Truthy(Step1Errors(data)[f])
  {
    var e := Step1Errors(data);
    if !Step1Passes(data) {
      if Blank(data.fullName) { assert "fullName" in e; }
      else if Blank(data.email) || !ValidateEmail(data.email) { assert "email" in e; }
      else if Blank(data.department) { assert "department" in e; }
      else { assert "role" in e; }
    }
  }

  // --------------------------------------------------------------- step 2

  const Step2Fields: set<string> := {"employmentType", "officeLocation"}

  function Step2Message(data: Step2Data, field: string): Option<string>
  {
    if field == "employmentType" then
      (if data.employmentType == "" then Some(EmploymentTypeRequired) else None)
    else if field == "officeLocation" then
      (if Blank(data.officeLocation) then Some(OfficeLocationRequired) else None)
    else None
  }

  function Step2Errors(data: Step2Data): Errors
  {
    map f | f in Step2Fields && Step2Message(data, f).Some? :: Step2Message(data, f)
  }

  predicate Step2Passes(data: Step2Data)
  {
    data.employmentType != "" && !Blank(data.officeLocation)
  }

  /** `validateStep2`. */
  method ValidateStep2(data: Step2Data) returns (errors: Errors)
    ensures errors == Step2Errors(data)
  {
    errors := map[];
    if data.employmentType == "" {
      errors := errors["employmentType" := Some(EmploymentTypeRequired)];
    }
    if Blank(data.officeLocation) {
      errors := errors["officeLocation" := Some(OfficeLocationRequired)];
    }
    assert errors.Keys == Step2Errors(data).Keys;
  }

  lemma Step2ErrorsFacts(data: Step2Data)
    ensures Step2Errors(data).Keys <= Step2Fields
    ensures Step2Errors(data) == map[] <==> Step2Passes(data)
    ensures "employmentType" in Step2Errors(data) <==> data.employmentType == ""
    ensures "officeLocation" in Step2Errors(data) <==> Blank(data.officeLocation)
    ensures "employmentType" in Step2Errors(data) ==>
              Step2Errors(data)["employmentType"] == Some(EmploymentTypeRequired)
    ensures "officeLocation" in Step2Errors(data) ==>
              Step2Errors(data)["officeLocation"] == Some(OfficeLocationRequired)
    ensures forall f :: f in Step2Errors(data) ==> Truthy(Step2Errors(data)[f])
  {
    var e := Step2Errors(data);
    if !Step2Passes(data) {
      if data.employmentType == "" { assert "employmentType" in e; }
      else { assert "officeLocation" in e; }
    }
  }
}
