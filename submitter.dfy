/**
  The form submitter (models/submitter.go): building the form payload from a
  leave request and the configured field-to-entry mapping, and the decision
  sequence of one submission (validate, build, send, check for HTTP 200).
  The HTTP round trip itself is abstracted to its outcome.
 */
module Submitter {
  import opened Wrappers
  import opened LeaveRequests
  import opened Validator

  /** `url.Values`: every key maps to a list of values. */
  type Values = map<string, seq<string>>

  /**
    `GoogleFormSubmitter`: the form URL and the entry map. Whether Go's
    `url.Parse` accepts the form URL (the only way `http.NewRequest("POST", …)`
    fails here) is recorded as `formUrlParses`; the URL grammar is not modelled.
   */
  datatype FormSubmitter = FormSubmitter(formUrl: string, entryMap: map<string, string>, formUrlParses: bool)

  /** What one HTTP POST came back with: a transport error or a response status. */
  datatype SendOutcome = TransportErr | Status(code: int)

  /** The remote form's convention: exactly HTTP 200 is success. */
  predicate Accepted(o: SendOutcome) {
    o == Status(200)
  }

  /** The entry id a field is sent under: present in the map and non-empty. */
  function EntryId(entryMap: map<string, string>, f: Field): Option<string> {
    var k := Key(f);
    if k in entryMap && entryMap[k] != "" then Some(entryMap[k]) else None
  }

  /** One `data.Set(entryID, value)` guarded by the entry lookup. */
  function SetField(data: Values, entryMap: map<string, string>, req: LeaveRequest, f: Field): Values {
    match EntryId(entryMap, f)
    case None => data
    case Some(id) => data[id := [Value(req, f)]]
  }

  /** The payload after the guarded `Set` calls for `fields`, in order, on an empty `url.Values`. */
  function PayloadOver(entryMap: map<string, string>, req: LeaveRequest, fields: seq<Field>): Values {
    if fields == [] then map[]
    else SetField(PayloadOver(entryMap, req, fields[..|fields| - 1]), entryMap, req, fields[|fields| - 1])
  }

  /** The payload `BuildFormData` produces. */
  function Payload(entryMap: map<string, string>, req: LeaveRequest): Values {
    PayloadOver(entryMap, req, FieldOrder)
  }

  /** `BuildFormData`: six successive guarded `Set` calls on a fresh `url.Values`. */
  method BuildFormData(s: FormSubmitter, req: LeaveRequest) returns (data: Values)
    ensures data == Payload(s.entryMap, req)
  {
    var m := s.entryMap;
    data := map[];
    if "name" in m && m["name"] != "" {
      data := data[m["name"] := [req.name]];
    }
    ghost var d1 := data;
    assert d1 == SetField(map[], m, req, Name);
    if "employee_id" in m && m["employee_id"] != "" {
      data := data[m["employee_id"] := [req.employeeId]];
    }
    ghost var d2 := data;
    assert d2 == SetField(d1, m, req, EmployeeId);
    if "start_date" in m && m["start_date"] != "" {
      data := data[m["start_date"] := [req.startDate]];
    }
    ghost var d3 := data;
    assert d3 == SetField(d2, m, req, StartDate);
    if "end_date" in m && m["end_date"] != "" {
      data := data[m["end_date"] := [req.endDate]];
    }
    ghost var d4 := data;
    assert d4 == SetField(d3, m, req, EndDate);
    if "leave_type" in m && m["leave_type"] != "" {
      data := data[m["leave_type"] := [req.leaveType]];
    }
    ghost var d5 := data;
    assert d5 == SetField(d4, m, req, LeaveType);
    if "password" in m && m["password"] != "" {
      data := data[m["password"] := [req.password]];
    }
    assert data == SetField(d5, m, req, Password);
    PayloadSteps(m, req);
  }

  /** `Payload` unfolded into its six guarded `Set` steps. */
  lemma PayloadSteps(m: map<string, string>, req: LeaveRequest)
    ensures Payload(m, req) ==
      SetField(SetField(SetField(SetField(SetField(SetField(map[], m, req, Name),
        m, req, EmployeeId), m, req, StartDate), m, req, EndDate), m, req, LeaveType), m, req, Password)
  {
    var f1 := [Name];
    var f2 := f1 + [EmployeeId];
    var f3 := f2 + [StartDate];
    var f4 := f3 + [EndDate];
    var f5 := f4 + [LeaveType];
    var f6 := f5 + [Password];
    assert f1[..0] == [] && f2[..1] == f1 && f3[..2] == f2 && f4[..3] == f3 && f5[..4] == f4 && f6[..5] == f5;
    assert PayloadOver(m, req, f1) == SetField(map[], m, req, Name);
    assert PayloadOver(m, req, f2) == SetField(PayloadOver(m, req, f1), m, req, EmployeeId);
    assert PayloadOver(m, req, f3) == SetField(PayloadOver(m, req, f2), m, req, StartDate);
    assert PayloadOver(m, req, f4) == SetField(PayloadOver(m, req, f3), m, req, EndDate);
    assert PayloadOver(m, req, f5) == SetField(PayloadOver(m, req, f4), m, req, LeaveType);
    assert PayloadOver(m, req, f6) == SetField(PayloadOver(m, req, f5), m, req, Password);
    assert f6 == FieldOrder;
  }

  /** A key is in the payload exactly when some field is mapped to it by a present, non-empty entry. */
  lemma {:induction false} PayloadKeys(entryMap: map<string, string>, req: LeaveRequest, fields: seq<Field>, key: string)
    ensures key in PayloadOver(entryMap, req, fields) <==>
      exists i :: 0 <= i < |fields| && EntryId(entryMap, fields[i]) == Some(key)
  {
    if fields != [] {
      var init := fields[..|fields| - 1];
      PayloadKeys(entryMap, req, init, key);
      if key in PayloadOver(entryMap, req, init) {
        var i :| 0 <= i < |init| && EntryId(entryMap, init[i]) == Some(key);
        assert fields[i] == init[i];
      }
      if exists i :: 0 <= i < |fields| && EntryId(entryMap, fields[i]) == Some(key) {
        var i :| 0 <= i < |fields| && EntryId(entryMap, fields[i]) == Some(key);
        if i < |init| { assert init[i] == fields[i]; }
      }
    }
  }

  /**
    Every payload key holds exactly one value, and it is the value of the
    LAST field (in visiting order) mapped to that key: `Set` overwrites.
   */
  lemma {:induction false} PayloadLastWriterWins(entryMap: map<string, string>, req: LeaveRequest, fields: seq<Field>, key: string)
    requires key in PayloadOver(entryMap, req, fields)
    ensures exists i :: (0 <= i < |fields| && EntryId(entryMap, fields[i]) == Some(key)
      && PayloadOver(entryMap, req, fields)[key] == [Value(req, fields[i])]
      && forall j :: i < j < |fields| ==> EntryId(entryMap, fields[j]) != Some(key))
  {
    var init := fields[..|fields| - 1];
    var last := |fields| - 1;
    if EntryId(entryMap, fields[last]) == Some(key) {
      assert PayloadOver(entryMap, req, fields)[key] == [Value(req, fields[last])];
    } else {
      PayloadLastWriterWins(entryMap, req, init, key);
      var i :| 0 <= i < |init| && EntryId(entryMap, init[i]) == Some(key)
        && PayloadOver(entryMap, req, init)[key] == [Value(req, init[i])]
        && forall j :: i < j < |init| ==> EntryId(entryMap, init[j]) != Some(key);
      assert fields[i] == init[i];
      forall j | i < j < |fields| ensures EntryId(entryMap, fields[j]) != Some(key) {
        if j < last { assert fields[j] == init[j]; }
      }
    }
  }

  /** Hence every key of the payload holds exactly one value. */
  lemma PayloadSingleValued(entryMap: map<string, string>, req: LeaveRequest, key: string)
    requires key in Payload(entryMap, req)
    ensures |Payload(entryMap, req)[key]| == 1
  {
    PayloadLastWriterWins(entryMap, req, FieldOrder, key);
  }

  /** A field whose entry id no other field shares is sent under that id with its own value. */
  lemma PayloadCarriesField(entryMap: map<string, string>, req: LeaveRequest, f: Field, id: string)
    requires EntryId(entryMap, f) == Some(id)
    requires forall g: Field :: g != f ==> EntryId(entryMap, g) != Some(id)
    ensures id in Payload(entryMap, req) && Payload(entryMap, req)[id] == [Value(req, f)]
  {
    FieldOrderIsPermutation();
    assert f in FieldOrder;
    PayloadKeys(entryMap, req, FieldOrder, id);
    PayloadLastWriterWins(entryMap, req, FieldOrder, id);
  }

  /** Entry-map keys other than the six logical fields never reach the payload. */
  lemma {:induction false} PayloadIgnoresOtherKeys(entryMap: map<string, string>, req: LeaveRequest, fields: seq<Field>, k: string, v: string)
    requires forall f: Field :: Key(f) != k
    ensures PayloadOver(entryMap[k := v], req, fields) == PayloadOver(entryMap, req, fields)
  {
    if fields != [] {
      PayloadIgnoresOtherKeys(entryMap, req, fields[..|fields| - 1], k, v);
      assert EntryId(entryMap[k := v], fields[|fields| - 1]) == EntryId(entryMap, fields[|fields| - 1]);
    }
  }

  /** The mapping `{"name": "entry.1", "password": ""}` sends the name under entry.1 and nothing for the password. */
  lemma PayloadExample(req: LeaveRequest)
    requires req.name == "Alice"
    ensures Payload(map["name" := "entry.1", "password" := ""], req) == map["entry.1" := ["Alice"]]
  {
    var m := map["name" := "entry.1", "password" := ""];
    assert EntryId(m, Name) == Some("entry.1");
    assert EntryId(m, EmployeeId) == None && EntryId(m, StartDate) == None && EntryId(m, EndDate) == None;
    assert EntryId(m, LeaveType) == None && EntryId(m, Password) == None;
    PayloadSteps(m, req);
  }

  const InvalidPrefix: string := "驗證失敗："
  const SuccessMessage: string := "表單提交成功"
  const UnreachableMessage: string := "無法連線到 Google Form"
  const RejectedMessage: string := "Google Form 提交失敗"

  /**
    The outcome of `Submit`: either Go's `(result, nil)`, with the payload it
    POSTed if it sent one, or Go's `(nil, err)` when the request could not be built.
   */
  datatype SubmitCall = Answered(result: SubmitResult, posted: Option<Values>) | RequestError

  /** `Submit`, given what the remote form would answer to the POST. */
  function Submit(s: FormSubmitter, req: LeaveRequest, response: SendOutcome): (r: SubmitCall)
    ensures r.RequestError? <==> Validate(req).None? && !s.formUrlParses
    ensures r.Answered? && r.posted.Some? ==> Validate(req).None? && r.posted == Some(Payload(s.entryMap, req))
    ensures r.Answered? && r.result.success ==> r.posted.Some? && response == Status(200)
  {
    match Validate(req)
    case Some(e) => Answered(SubmitResult(false, InvalidPrefix + e.message), None)
    case None =>
      var data := Payload(s.entryMap, req);
      if !s.formUrlParses then RequestError
      else match response
        case TransportErr => Answered(SubmitResult(false, UnreachableMessage), Some(data))
        case Status(code) =>
          if code == 200 then Answered(SubmitResult(true, SuccessMessage), Some(data))
          else Answered(SubmitResult(false, RejectedMessage), Some(data))
  }

  /** An invalid request is answered, not errored: failure with the validation message, and nothing is sent. */
  lemma SubmitInvalidNotSent(s: FormSubmitter, req: LeaveRequest, response: SendOutcome)
    requires Validate(req).Some?
    ensures Submit(s, req, response).Answered?
    ensures Submit(s, req, response).posted == None
    ensures !Submit(s, req, response).result.success
    ensures Submit(s, req, response).result.message == InvalidPrefix + Validate(req).value.message
  {
  }

  /** A transport error is a failed result with a nil error, after the payload was sent. */
  lemma SubmitTransportError(s: FormSubmitter, req: LeaveRequest)
    requires Validate(req).None? && s.formUrlParses
    ensures Submit(s, req, TransportErr) == Answered(SubmitResult(false, UnreachableMessage), Some(Payload(s.entryMap, req)))
  {
  }

  /** A valid request whose URL builds is posted; a 200 is the success message, any other status the rejection message, both with a nil error. */
  lemma SubmitStatus(s: FormSubmitter, req: LeaveRequest, code: int)
    requires Validate(req).None? && s.formUrlParses
    ensures Submit(s, req, Status(code)) ==
      Answered(SubmitResult(code == 200, if code == 200 then SuccessMessage else RejectedMessage), Some(Payload(s.entryMap, req)))
  {
  }

  /** Success is reported exactly when the request is valid, was sent, and the status is exactly 200. */
  lemma SubmitSuccessIff(s: FormSubmitter, req: LeaveRequest, response: SendOutcome)
    ensures (Submit(s, req, response).Answered? && Submit(s, req, response).result.success)
      <==> Validate(req).None? && s.formUrlParses && Accepted(response)
  {
  }

  /** Whatever `Submit` sends is the payload of the request itself. */
  lemma SubmitPostsPayload(s: FormSubmitter, req: LeaveRequest, response: SendOutcome)
    requires Submit(s, req, response).Answered? && Submit(s, req, response).posted.Some?
    ensures Validate(req).None?
    ensures Submit(s, req, response).posted == Some(Payload(s.entryMap, req))
  {
  }
}
