/**
  The request validator (models/validator.go): a chain of guard clauses that
  reports the first failing check as an error naming the offending field.
 */
module Validator {
  import opened Wrappers
  import opened Dates
  import opened LeaveRequests

  datatype ValidationError = ValidationError(field: string, message: string)

  /** The leave types the remote form accepts. */
  const AllowedLeaveTypes: set<string> := {"近假", "長假"}

  const DateFormatMessage: string := "日期格式錯誤，請使用 YYYY-MM-DD"
  const DateOrderMessage: string := "請假終點日期不可早於起點日期"
  const LeaveTypeMessage: string := "假別必須為「近假」或「長假」"

  /** The message reported when a required field is empty. */
  function RequiredMessage(f: Field): string {
    match f
    case Name => "姓名為必填欄位"
    case EmployeeId => "員工代號為必填欄位"
    case StartDate => "請假起點日期為必填欄位"
    case EndDate => "請假終點日期為必填欄位"
    case LeaveType => "假別為必填欄位"
    case Password => "請假密碼為必填欄位"
  }

  function Required(f: Field): ValidationError {
    ValidationError(Key(f), RequiredMessage(f))
  }

  /**
    `parseDate`: the empty string is refused before `time.Parse` is asked;
    `ParseDate` refuses it too, so the two agree.
   */
  function ParseRequestDate(s: string): (r: Option<Date>)
    ensures s == "" ==> r == None
    ensures s != "" ==> r == ParseDate(s)
  {
    if s == "" then None else ParseDate(s)
  }

  /** `Validate`: `None` is Go's `nil`. */
  function Validate(req: LeaveRequest): (r: Option<ValidationError>)
    ensures r.Some? ==> r.value.field in {"name", "employee_id", "start_date", "end_date", "leave_type", "password"}
    ensures r.None? ==> AllPresent(req) && req.leaveType in AllowedLeaveTypes
  {
    if req.name == "" then Some(Required(Name))
    else if req.employeeId == "" then Some(Required(EmployeeId))
    else if req.startDate == "" then Some(Required(StartDate))
    else if req.endDate == "" then Some(Required(EndDate))
    else if req.leaveType == "" then Some(Required(LeaveType))
    else if req.password == "" then Some(Required(Password))
    else match ParseRequestDate(req.startDate)
      case None => Some(ValidationError("start_date", DateFormatMessage))
      case Some(start) =>
        match ParseRequestDate(req.endDate)
        case None => Some(ValidationError("end_date", DateFormatMessage))
        case Some(end) =>
          if Before(end, start) then Some(ValidationError("end_date", DateOrderMessage))
          else if req.leaveType !in AllowedLeaveTypes then Some(ValidationError("leave_type", LeaveTypeMessage))
          else None
  }

  predicate AllPresent(req: LeaveRequest) {
    forall i :: 0 <= i < |FieldOrder| ==> Value(req, FieldOrder[i]) != ""
  }

  /** A request passes exactly when every field is present, both dates parse in order, and the type is allowed. */
  lemma ValidateAcceptsIff(req: LeaveRequest)
    ensures Validate(req) == None <==>
      AllPresent(req)
      && ParseDate(req.startDate).Some? && ParseDate(req.endDate).Some?
      && !Before(ParseDate(req.endDate).value, ParseDate(req.startDate).value)
      && req.leaveType in AllowedLeaveTypes
  {
    if AllPresent(req) {
      assert Value(req, FieldOrder[0]) != "" && Value(req, FieldOrder[1]) != "" && Value(req, FieldOrder[2]) != "";
      assert Value(req, FieldOrder[3]) != "" && Value(req, FieldOrder[4]) != "" && Value(req, FieldOrder[5]) != "";
    } else {
      var i :| 0 <= i < |FieldOrder| && Value(req, FieldOrder[i]) == "";
      assert Validate(req).Some?;
    }
  }

  /** The first empty field in the order name, employee_id, start_date, end_date, leave_type, password is the one reported. */
  lemma {:induction false} FirstEmptyFieldWins(req: LeaveRequest, i: nat)
    requires i < |FieldOrder|
    requires Value(req, FieldOrder[i]) == ""
    requires forall j :: 0 <= j < i ==> Value(req, FieldOrder[j]) != ""
    ensures Validate(req) == Some(Required(FieldOrder[i]))
    ensures Validate(req).value.field == Key(FieldOrder[i])
  {
    if i > 0 { assert Value(req, FieldOrder[0]) != ""; }
    if i > 1 { assert Value(req, FieldOrder[1]) != ""; }
    if i > 2 { assert Value(req, FieldOrder[2]) != ""; }
    if i > 3 { assert Value(req, FieldOrder[3]) != ""; }
    if i > 4 { assert Value(req, FieldOrder[4]) != ""; }
  }

  /** With every field present, a malformed start date is reported on start_date, whatever the end date is. */
  lemma StartDateCheckedFirst(req: LeaveRequest)
    requires AllPresent(req)
    requires ParseDate(req.startDate).None?
    ensures Validate(req) == Some(ValidationError("start_date", DateFormatMessage))
  {
    ValidateAcceptsIff(req);
    assert Value(req, FieldOrder[0]) != "" && Value(req, FieldOrder[1]) != "" && Value(req, FieldOrder[2]) != "";
    assert Value(req, FieldOrder[3]) != "" && Value(req, FieldOrder[4]) != "" && Value(req, FieldOrder[5]) != "";
  }

  /** A well-formed start date and a malformed end date are reported on end_date. */
  lemma EndDateFormatChecked(req: LeaveRequest)
    requires AllPresent(req)
    requires ParseDate(req.startDate).Some? && ParseDate(req.endDate).None?
    ensures Validate(req) == Some(ValidationError("end_date", DateFormatMessage))
  {
    assert Value(req, FieldOrder[0]) != "" && Value(req, FieldOrder[1]) != "" && Value(req, FieldOrder[2]) != "";
    assert Value(req, FieldOrder[3]) != "" && Value(req, FieldOrder[4]) != "" && Value(req, FieldOrder[5]) != "";
  }

  /**
    Once both dates parse, an end strictly before the start is refused on
    end_date before the leave type is looked at; equal dates are not refused
    by that check, and only then does an unknown leave type fail.
   */
  lemma DateOrderBeforeLeaveType(req: LeaveRequest, start: Date, end: Date)
    requires AllPresent(req)
    requires ParseDate(req.startDate) == Some(start) && ParseDate(req.endDate) == Some(end)
    ensures Before(end, start) ==> Validate(req) == Some(ValidationError("end_date", DateOrderMessage))
    ensures !Before(end, start) ==>
      Validate(req) == (if req.leaveType in AllowedLeaveTypes then None else Some(ValidationError("leave_type", LeaveTypeMessage)))
    ensures end == start ==> !Before(end, start)
  {
    assert Value(req, FieldOrder[0]) != "" && Value(req, FieldOrder[1]) != "" && Value(req, FieldOrder[2]) != "";
    assert Value(req, FieldOrder[3]) != "" && Value(req, FieldOrder[4]) != "" && Value(req, FieldOrder[5]) != "";
  }

  /** The one-day leave of the controller tests passes; a missing employee id is reported first. */
  lemma ValidateExamples()
    ensures Validate(LeaveRequest("測試員工", "A12345", "2026-02-01", "2026-02-01", "近假", "pw")) == None
    ensures Validate(LeaveRequest("測試員工", "", "", "", "", "")) == Some(Required(EmployeeId))
    ensures Validate(LeaveRequest("測試員工", "A12345", "2026-02-03", "2026-02-01", "近假", "pw"))
         == Some(ValidationError("end_date", DateOrderMessage))
    ensures Validate(LeaveRequest("測試員工", "A12345", "2026-02-01", "2026-02-03", "病假", "pw"))
         == Some(ValidationError("leave_type", LeaveTypeMessage))
  {
    ParseFormat(Date(2026, 2, 1));
    assert FormatDate(Date(2026, 2, 1)) == "2026-02-01";
    ParseFormat(Date(2026, 2, 3));
    assert FormatDate(Date(2026, 2, 3)) == "2026-02-03";
  }
}
