/**
  The leave request submitted to the remote form, and the result reported for
  a submission (models/leave_request.go), together with the six logical
  fields in the fixed order in which the validator, the payload builder and
  the configuration check visit them.
 */
module LeaveRequests {

  datatype LeaveRequest = LeaveRequest(
    name: string,
    employeeId: string,
    startDate: string,
    endDate: string,
    leaveType: string,
    password: string)

  datatype SubmitResult = SubmitResult(success: bool, message: string)

  datatype Field = Name | EmployeeId | StartDate | EndDate | LeaveType | Password

  /** name, employee_id, start_date, end_date, leave_type, password. */
  const FieldOrder: seq<Field> := [Name, EmployeeId, StartDate, EndDate, LeaveType, Password]

  /** The logical field name used as the key of the configured entry map and in error reports. */
  function Key(f: Field): string {
    match f
    case Name => "name"
    case EmployeeId => "employee_id"
    case StartDate => "start_date"
    case EndDate => "end_date"
    case LeaveType => "leave_type"
    case Password => "password"
  }

  function Value(req: LeaveRequest, f: Field): string {
    match f
    case Name => req.name
    case EmployeeId => req.employeeId
    case StartDate => req.startDate
    case EndDate => req.endDate
    case LeaveType => req.leaveType
    case Password => req.password
  }

  /** The six keys are distinct and the order lists every field exactly once. */
  lemma FieldOrderIsPermutation()
    ensures |FieldOrder| == 6
    ensures forall f: Field :: f in FieldOrder
    ensures forall i, j :: 0 <= i < j < |FieldOrder| ==> Key(FieldOrder[i]) != Key(FieldOrder[j])
  {
    forall f: Field ensures f in FieldOrder {
      match f
      case Name => assert FieldOrder[0] == f;
      case EmployeeId => assert FieldOrder[1] == f;
      case StartDate => assert FieldOrder[2] == f;
      case EndDate => assert FieldOrder[3] == f;
      case LeaveType => assert FieldOrder[4] == f;
      case Password => assert FieldOrder[5] == f;
    }
  }
}
