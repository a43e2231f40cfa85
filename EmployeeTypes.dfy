/** The record shapes of the application (src/types/employee.ts) and the form
    records that the wizard's steps and the draft store pass around. Fields
    that the source types as `Role` or `EmploymentType` but fills from an
    unchecked cast (`as Role`) or a `<select>` value are kept as their text. */
module EmployeeTypes {
  import opened Js

  datatype Role = Ops | Admin | Engineer | Finance
  {
    function Text(): string
    {
      match this
      case Ops => "Ops"
      case Admin => "Admin"
      case Engineer => "Engineer"
      case Finance => "Finance"
    }
  }

  datatype EmploymentType = FullTime | PartTime | Contract | Intern
  {
    function Text(): string
    {
      match this
      case FullTime => "Full-time"
      case PartTime => "Part-time"
      case Contract => "Contract"
      case Intern => "Intern"
    }
  }

  /** A search result of the department and location look-ups. */
  datatype Department = Department(id: int, name: string)
  datatype Location = Location(id: int, name: string)

  /** The server-assigned `id?` of both records is not modelled. */
  datatype BasicInfo = BasicInfo(
    fullName: string, email: string, department: string, role: string, employeeId: string)

  datatype Details = Details(
    employeeId: string, email: string, employmentType: string,
    officeLocation: string, notes: string, photo: Option<string>)

  /** A row of the employee list: the basic fields plus optional details. */
  datatype Employee = Employee(
    fullName: string, email: string, department: string, role: string, employeeId: string,
    employmentType: Option<string>, officeLocation: Option<string>,
    notes: Option<string>, photo: Option<string>)

  /** The state of the step-1 form and what it hands to the wizard. */
  datatype Step1Data = Step1Data(
    fullName: string, email: string, department: string, role: string, employeeId: string)
  {
    function ToPartial(): Step1Partial
    {
      Step1Partial(Some(fullName), Some(email), Some(department), Some(role), Some(employeeId))
    }
  }

  /** The state of the step-2 form. */
  datatype Step2Data = Step2Data(
    employmentType: string, officeLocation: string, notes: string, photo: string)
  {
    function ToPartial(): Step2Partial
    {
      Step2Partial(Some(employmentType), Some(officeLocation), Some(notes), Some(photo))
    }
  }

  /** `Partial<Step1Data>`: every field may be absent; `{}` is `NoStep1Fields`. */
  datatype Step1Partial = Step1Partial(
    fullName: Option<string>, email: Option<string>, department: Option<string>,
    role: Option<string>, employeeId: Option<string>)

  /** `Partial<Step2Data>`. */
  datatype Step2Partial = Step2Partial(
    employmentType: Option<string>, officeLocation: Option<string>,
    notes: Option<string>, photo: Option<string>)

  const NoStep1Fields := Step1Partial(None, None, None, None, None)
  const NoStep2Fields := Step2Partial(None, None, None, None)

  /** A draft as the draft store keeps it: either step may be missing. */
  datatype DraftData = DraftData(step1: Option<Step1Partial>, step2: Option<Step2Partial>)

  /** A field-keyed error dictionary (`ValidationErrors`): a key may be
      present with an `undefined` message (`None`). */
  type Errors = map<string, Option<string>>
}
