/**
 The base personnel record of src/employee.py: construction with batched
 validation, salary and contact updates, the clock-in/clock-out attendance
 log, leave requests, the activation flag and the dictionary round trip.
 Each mutating method is a pure function from the record to a `Step`: the
 record as the call leaves it, with the returned value or the raised error.
 Wall-clock reads are parameters: timestamps are integer seconds and the
 leave-request id is passed in.
 */
module Employees {
  import opened PyValues

  // Messages of the ValidationError and AttendanceError the source raises,
  // spelled as the source spells them.
  const IdMsg := "Employee ID must be a non-empty string or integer "
  const SalaryMsg := "Salary must be a non-negative number."
  const NameMsg := "Name must be a non-empty string."
  const RoleMsg := "Employee role must be a non-empty string"
  const HireDateMsg := "Hire date must be a datetime object or string."
  const ContactTypeMsg := "Contanct information must be a dictionary"
  const PhoneMsg := "Phone number in contact info must contain only digits."
  const EmailMsg := "Email in contact info must be valid."
  const ActiveMsg := "Active status must be boolean."
  const AttendanceMsg := "Attendance info must be a list."
  const LeaveMsg := "Leave request info must be a list."
  const MetaMsg := "Meta must be a dictionary."
  const SalaryPositiveMsg := "Salary must be a positive number."
  const NewContactTypeMsg := "New contact info must be a dictionary."
  const NewPhoneMsg := "Phone number must contain only digits."
  const AlreadyClockedInMsg := "Already clocked in. Cannot clock in again without clocking out."
  const NotClockedInMsg := "No active clock in to clock out from."
  const LeaveOrderMsg := "Start date can not be after end date."

  /** The constructor's parameters, as the caller passes them. */
  datatype Args = Args(
    id: Value,
    name: Value,
    role: Value,
    salary: Value,
    hireDate: Value,
    contactInfo: Value,
    active: Value,
    attendanceInfo: Value,
    leaveRequests: Value,
    meta: Value)

  /** A constructed employee. Validation fixes the type of the name, the
      role, the contact map, the flag, the two logs and the metadata map;
      the entries of the logs are whatever the caller supplied. */
  datatype Employee = Employee(
    id: Value,
    name: string,
    role: string,
    salary: Value,
    hireDate: Value,
    contactInfo: map<string, Value>,
    active: bool,
    attendanceInfo: seq<Value>,
    leaveRequests: seq<Value>,
    meta: map<string, Value>)

  /** The constructor arguments an employee was (or could have been) built from. */
  function Fields(e: Employee): Args
  {
    Args(e.id, Str(e.name), Str(e.role), e.salary, e.hireDate, Map(e.contactInfo),
         Bool(e.active), List(e.attendanceInfo), List(e.leaveRequests), Map(e.meta))
  }

  // ----- Validation -----

  /** An int (a bool included) or a string that is not all whitespace. */
  predicate IdOk(v: Value)
  {
    match v
    case Int(_) => true
    case Bool(_) => true
    case Str(s) => !Blank(s)
    case _ => false
  }

  /** A non-negative int or float. */
  predicate SalaryOk(v: Value)
  {
    Num(v).Some? && Num(v).value >= 0.0
  }

  predicate HireDateOk(v: Value)
  {
    v.DateTime? || v.Str?
  }

  /** The contact checks as written: the phone must print as digits, and the
      email check fires only when the address is falsy AND the dict has no
      "@" key; the address itself is never searched for an "@". */
  predicate ContactOk(m: map<string, Value>)
  {
    && ("phone" in m ==> StrIsDigit(m["phone"]))
    && ("email" in m && "@" !in m ==> Truthy(m["email"]))
  }

  /** Every argument has the type the validation accepts. Note that any
      string, the empty one included, is accepted as a name or a role. */
  predicate WellTyped(a: Args)
  {
    && IdOk(a.id)
    && SalaryOk(a.salary)
    && a.name.Str?
    && a.role.Str?
    && HireDateOk(a.hireDate)
    && a.contactInfo.Map? && ContactOk(a.contactInfo.m)
    && a.active.Bool?
    && a.attendanceInfo.List?
    && a.leaveRequests.List?
    && a.meta.Map?
  }

  /** A record whose fields would pass validation again. */
  predicate Valid(e: Employee)
  {
    WellTyped(Fields(e))
  }

  /** The one-message list `[msg]` when the check fails, else nothing. */
  function MsgIf(c: bool, msg: string): seq<string>
  {
    if c then [msg] else []
  }

  /** The name and role checks: a string never fails them, whatever its
      text, and any other value has no `strip` method, so the check raises
      AttributeError instead of reporting a message. */
  function NonStrCheck(v: Value, msg: string): Result<seq<string>>
  {
    if v.Str? then Ok([]) else Err(AttributeError)
  }

  /** The phone check: reports when the contact value has a "phone" entry
      whose text is not all digits. The membership test and the lookup
      raise whatever the contact value's type raises. */
  function PhoneCheck(ci: Value): Result<seq<string>>
  {
    var has :- Contains(ci, "phone");
    if !has then Ok([])
    else
      var phone :- Subscript(ci, "phone");
      Ok(MsgIf(!StrIsDigit(phone), PhoneMsg))
  }

  /** The email check: reports when the contact value has an "email"
      entry, has no "@" entry, and the address is falsy. */
  function EmailCheck(ci: Value): Result<seq<string>>
  {
    var has :- Contains(ci, "email");
    if !has then Ok([])
    else
      // `ci` supported the first `in`, so it supports this one
      if Contains(ci, "@").value then Ok([])
      else
        var email :- Subscript(ci, "email");
        Ok(MsgIf(!Truthy(email), EmailMsg))
  }

  /** The validation's error list in check order, or the exception that
      interrupts it: AttributeError from a non-string name or role, the
      hire-date ValidationError on its own, TypeError from a contact value
      that does not support `in`. */
  function CollectErrors(a: Args): Result<seq<string>>
  {
    var idErrors := MsgIf(!IdOk(a.id), IdMsg);
    var salaryErrors := MsgIf(!SalaryOk(a.salary), SalaryMsg);
    var nameErrors :- NonStrCheck(a.name, NameMsg);
    var roleErrors :- NonStrCheck(a.role, RoleMsg);
    if !HireDateOk(a.hireDate) then Err(ValidationError(HireDateMsg))
    else
      var typeErrors := MsgIf(!a.contactInfo.Map?, ContactTypeMsg);
      var phoneErrors :- PhoneCheck(a.contactInfo);
      var emailErrors :- EmailCheck(a.contactInfo);
      Ok(idErrors + salaryErrors + nameErrors + roleErrors + typeErrors + phoneErrors + emailErrors
         + MsgIf(!a.active.Bool?, ActiveMsg)
         + MsgIf(!a.attendanceInfo.List?, AttendanceMsg)
         + MsgIf(!a.leaveRequests.List?, LeaveMsg)
         + MsgIf(!a.meta.Map?, MetaMsg))
  }

  /** `Employee.validate`: raises the first interrupting exception, else one
      ValidationError whose message joins every collected error with "\n". */
  function Validate(a: Args): (r: Result<()>)
    ensures r.Ok? <==> WellTyped(a)
    ensures !a.name.Str? ==> r == Err(AttributeError)
    ensures a.name.Str? && !a.role.Str? ==> r == Err(AttributeError)
    ensures a.name.Str? && a.role.Str? && !HireDateOk(a.hireDate) ==> r == Err(ValidationError(HireDateMsg))
    ensures (a.name.Str? && a.role.Str? && HireDateOk(a.hireDate)
             && !(a.contactInfo.Map? || a.contactInfo.List? || a.contactInfo.Str?)) ==> r == Err(TypeError)
    ensures (a.name.Str? && a.role.Str? && HireDateOk(a.hireDate)
             && (a.contactInfo.List? || a.contactInfo.Str?)
             && (Contains(a.contactInfo, "phone") == Ok(true)
                 || (Contains(a.contactInfo, "email") == Ok(true) && Contains(a.contactInfo, "@") == Ok(false))))
            ==> r == Err(TypeError)
  {
    var errors :- CollectErrors(a);
    if errors == [] then Ok(()) else Err(ValidationError(Join(errors, "\n")))
  }

  function Build(a: Args): (e: Employee)
    requires WellTyped(a)
    ensures Fields(e) == a
  {
    Employee(a.id, a.name.s, a.role.s, a.salary, a.hireDate, a.contactInfo.m,
             a.active.b, a.attendanceInfo.items, a.leaveRequests.items, a.meta.m)
  }

  /** `Employee.__init__`: store the arguments, then validate. */
  function New(a: Args): (r: Result<Employee>)
    ensures r.Ok? <==> WellTyped(a)
    ensures r.Ok? ==> Fields(r.value) == a && Valid(r.value)
    ensures r.Err? ==> Validate(a) == Err(r.error)
  {
    var _ :- Validate(a);
    Ok(Build(a))
  }

  // ----- Salary and contact -----

  /** `update_salary`: only a strictly positive number is stored. */
  function UpdateSalary(e: Employee, newSalary: Value): (r: Step<Employee, ()>)
    ensures r.Returned? <==> Num(newSalary).Some? && Num(newSalary).value > 0.0
    ensures r.Returned? ==> r.state.salary == newSalary && r.state.(salary := e.salary) == e
    ensures r.Raised? ==> r.state == e
    ensures Num(newSalary).None? ==> r.Raised? && r.error == TypeError
    ensures Num(newSalary).Some? && Num(newSalary).value <= 0.0 ==> r == Raised(e, ValidationError(SalaryPositiveMsg))
  {
    match Num(newSalary)
    case None => Raised(e, TypeError)
    case Some(x) =>
      if x > 0.0 then Returned(e.(salary := newSalary), ())
      else Raised(e, ValidationError(SalaryPositiveMsg))
  }

  /** `update_contact`: a dict whose phone (if any) prints as digits is
      merged over the stored contact map. */
  function UpdateContact(e: Employee, newContact: Value): (r: Step<Employee, bool>)
    ensures r.Returned? <==> newContact.Map? && ("phone" in newContact.m ==> StrIsDigit(newContact.m["phone"]))
    ensures r.Raised? ==> r.state == e && r.error.ValidationError?
    ensures !newContact.Map? ==> r == Raised(e, ValidationError(NewContactTypeMsg))
    ensures r.Returned? ==>
      && r.value
      && r.state.contactInfo.Keys == e.contactInfo.Keys + newContact.m.Keys
      && (forall k :: k in newContact.m ==> r.state.contactInfo[k] == newContact.m[k])
      && (forall k :: k in e.contactInfo && k !in newContact.m ==> r.state.contactInfo[k] == e.contactInfo[k])
      && r.state.(contactInfo := e.contactInfo) == e
  {
    if !newContact.Map? then Raised(e, ValidationError(NewContactTypeMsg))
    else if "phone" in newContact.m && !StrIsDigit(newContact.m["phone"]) then
      Raised(e, ValidationError(NewPhoneMsg))
    else Returned(e.(contactInfo := e.contactInfo + newContact.m), true)
  }

  // ----- Attendance -----

  /** A fresh entry `{"clock_in": t}`. */
  function OpenEntry(t: int): Value
  {
    Map(map["clock_in" := Int(t)])
  }

  /** An entry the source treats as closed: one that contains "clock_out". */
  predicate Closed(v: Value)
  {
    Contains(v, "clock_out") == Ok(true)
  }

  /** An entry `clock_out` can close: a dict without "clock_out" whose
      "clock_in" is a timestamp. */
  predicate ClosableEntry(v: Value)
  {
    v.Map? && "clock_out" !in v.m && "clock_in" in v.m && v.m["clock_in"].Int?
  }

  /** Every entry but the last one is closed. */
  predicate AllButLastClosed(log: seq<Value>)
  {
    forall i :: 0 <= i < |log| - 1 ==> Closed(log[i])
  }

  /** An entry of the shape the clock methods write. */
  predicate Shaped(v: Value)
  {
    && v.Map?
    && "clock_in" in v.m && v.m["clock_in"].Int?
    && ("clock_out" in v.m ==> v.m["clock_out"].Int?)
  }

  /** The attendance-log invariant: entries of the clock methods' shape,
      every one but the last closed. */
  predicate WellFormedLog(log: seq<Value>)
  {
    AllButLastClosed(log) && forall i :: 0 <= i < |log| ==> Shaped(log[i])
  }

  /** The duration `(out - in)` in minutes, exactly. */
  function Minutes(clockIn: int, clockOut: int): (r: real)
    ensures r * 60.0 == (clockOut - clockIn) as real
  {
    (clockOut - clockIn) as real / 60.0
  }

  /** `datetime.fromisoformat` on a stored timestamp; with timestamps
      modelled as integers, any other value does not parse. */
  function ParseTimestamp(v: Value): Result<int>
  {
    if v.Int? then Ok(v.i) else Err(ValueError)
  }

  function ReplaceLast(log: seq<Value>, v: Value): (r: seq<Value>)
    requires |log| > 0
    ensures |r| == |log| && r[..|log| - 1] == log[..|log| - 1] && r[|log| - 1] == v
  {
    log[..|log| - 1] + [v]
  }

  /** `clock_in(t)`: refuses while the last entry is open, else appends
      `{"clock_in": t}`. */
  function ClockIn(e: Employee, t: int): (r: Step<Employee, bool>)
    ensures r.Returned? <==> |e.attendanceInfo| == 0 || Closed(e.attendanceInfo[|e.attendanceInfo| - 1])
    ensures r.Raised? ==> r.state == e
    ensures |e.attendanceInfo| > 0 && Contains(e.attendanceInfo[|e.attendanceInfo| - 1], "clock_out") == Ok(false)
            ==> r == Raised(e, AttendanceError(AlreadyClockedInMsg))
    ensures r.Returned? ==>
      && r.value
      && |r.state.attendanceInfo| == |e.attendanceInfo| + 1
      && r.state.attendanceInfo[..|e.attendanceInfo|] == e.attendanceInfo
      && r.state.attendanceInfo[|e.attendanceInfo|] == OpenEntry(t)
      && r.state.(attendanceInfo := e.attendanceInfo) == e
  {
    var log := e.attendanceInfo;
    if |log| == 0 then Returned(e.(attendanceInfo := log + [OpenEntry(t)]), true)
    else
      match Contains(log[|log| - 1], "clock_out")
      case Err(err) => Raised(e, err)
      case Ok(closed) =>
        if !closed then Raised(e, AttendanceError(AlreadyClockedInMsg))
        else Returned(e.(attendanceInfo := log + [OpenEntry(t)]), true)
  }

  /** `clock_out(t)`: refuses on an empty log or a closed last entry; else
      writes "clock_out" into the last entry, then reads back and parses its
      "clock_in" (a missing or unparseable one raises with the write already
      made), and finally stores the duration in minutes. */
  function ClockOut(e: Employee, t: int): (r: Step<Employee, bool>)
    ensures |e.attendanceInfo| == 0 ==> r == Raised(e, AttendanceError(NotClockedInMsg))
    ensures |e.attendanceInfo| > 0 && Closed(e.attendanceInfo[|e.attendanceInfo| - 1])
            ==> r == Raised(e, AttendanceError(NotClockedInMsg))
    ensures r.Returned? <==> |e.attendanceInfo| > 0 && ClosableEntry(e.attendanceInfo[|e.attendanceInfo| - 1])
    ensures r.state.(attendanceInfo := e.attendanceInfo) == e
    ensures |r.state.attendanceInfo| == |e.attendanceInfo|
    ensures |e.attendanceInfo| > 0 ==>
      r.state.attendanceInfo[..|e.attendanceInfo| - 1] == e.attendanceInfo[..|e.attendanceInfo| - 1]
    ensures |e.attendanceInfo| > 0 && !e.attendanceInfo[|e.attendanceInfo| - 1].Map? ==>
      r.Raised? && r.state == e
    ensures |e.attendanceInfo| > 0 ==>
      var n := |e.attendanceInfo|;
      var last := e.attendanceInfo[n - 1];
      (last.Map? && "clock_out" !in last.m && !ClosableEntry(last) ==>
        r == Raised(e.(attendanceInfo := ReplaceLast(e.attendanceInfo, Map(last.m["clock_out" := Int(t)]))),
                    if "clock_in" in last.m then ValueError else KeyError))
    ensures r.Returned? ==>
      var n := |e.attendanceInfo|;
      var before := e.attendanceInfo[n - 1].m;
      var after := r.state.attendanceInfo[n - 1];
      && r.value
      && after.Map?
      && after.m.Keys == before.Keys + {"clock_out", "duration_minutes"}
      && (forall k :: k in before && k != "duration_minutes" ==> after.m[k] == before[k])
      && after.m["clock_out"] == Int(t)
      && after.m["duration_minutes"].Float?
      && after.m["duration_minutes"].x * 60.0 == (t - before["clock_in"].i) as real
  {
    var log := e.attendanceInfo;
    if |log| == 0 then Raised(e, AttendanceError(NotClockedInMsg))
    else
      var last := log[|log| - 1];
      match Contains(last, "clock_out")
      case Err(err) => Raised(e, err)
      case Ok(closed) =>
        if closed then Raised(e, AttendanceError(NotClockedInMsg))
        else if !last.Map? then Raised(e, TypeError)
        else
          var stamped := last.m["clock_out" := Int(t)];
          var written := e.(attendanceInfo := ReplaceLast(log, Map(stamped)));
          if "clock_in" !in stamped then Raised(written, KeyError)
          else
            match ParseTimestamp(stamped["clock_in"])
            case Err(err) => Raised(written, err)
            case Ok(start) =>
              var entry := Map(stamped["duration_minutes" := Float(Minutes(start, t))]);
              Returned(e.(attendanceInfo := ReplaceLast(log, entry)), true)
  }

  // ----- Leave requests -----

  /** The dict `request_leave` appends. */
  function LeaveEntry(requestId: string, startDate: string, endDate: string, reason: Value): Value
  {
    Map(map["id" := Str(requestId), "start_date" := Str(startDate), "end_date" := Str(endDate),
            "reason" := reason, "status" := Str("pending")])
  }

  /** `request_leave(start, end, reason)`: refuses when `start > end` in
      string order, else appends one pending request and returns its id. */
  function RequestLeave(e: Employee, startDate: string, endDate: string, reason: Value, requestId: string)
    : (r: Step<Employee, string>)
    ensures r.Raised? <==> StrLess(endDate, startDate)
    ensures r.Raised? ==> r == Raised(e, ValidationError(LeaveOrderMsg))
    ensures r.Returned? ==>
      && r.value == requestId
      && |r.state.leaveRequests| == |e.leaveRequests| + 1
      && r.state.leaveRequests[..|e.leaveRequests|] == e.leaveRequests
      && r.state.(leaveRequests := e.leaveRequests) == e
      && (var entry := r.state.leaveRequests[|e.leaveRequests|];
          && entry.Map?
          && entry.m.Keys == {"id", "start_date", "end_date", "reason", "status"}
          && entry.m["id"] == Str(requestId)
          && entry.m["start_date"] == Str(startDate)
          && entry.m["end_date"] == Str(endDate)
          && entry.m["reason"] == reason
          && entry.m["status"] == Str("pending"))
  {
    if StrLess(endDate, startDate) then Raised(e, ValidationError(LeaveOrderMsg))
    else Returned(e.(leaveRequests := e.leaveRequests + [LeaveEntry(requestId, startDate, endDate, reason)]), requestId)
  }

  // ----- Activation -----

  /** `activate`: sets the flag; nothing else changes. */
  function Activate(e: Employee): (r: Employee)
    ensures r.active && r.(active := e.active) == e
  {
    e.(active := true)
  }

  /** `deactivate(reason)`: clears the flag and, for a truthy reason only,
      records it under "termination_reason". */
  function Deactivate(e: Employee, reason: Value): (r: Employee)
    ensures !r.active
    ensures Truthy(reason) ==>
      && r.meta.Keys == e.meta.Keys + {"termination_reason"}
      && r.meta["termination_reason"] == reason
      && forall k :: k in e.meta && k != "termination_reason" ==> r.meta[k] == e.meta[k]
    ensures !Truthy(reason) ==> r.meta == e.meta
    ensures r.(active := e.active, meta := e.meta) == e
  {
    e.(active := false, meta := if Truthy(reason) then e.meta["termination_reason" := reason] else e.meta)
  }

  // ----- Dictionary form -----

  const ParamNames: set<string> :=
    {"id", "name", "role", "salary", "hire_date", "contact_info", "active",
     "attendance_info", "leave_requests", "meta"}

  /** A datetime becomes its ISO 8601 text; anything else is kept. */
  function IsoText(v: Value): (r: Value)
    ensures !r.DateTime?
    ensures v.DateTime? ==> r == Str(v.iso)
    ensures !v.DateTime? ==> r == v
  {
    if v.DateTime? then Str(v.iso) else v
  }

  /** `to_dict`: the instance attributes, with a datetime hire date
      rendered as text. */
  function ToDict(e: Employee): (d: map<string, Value>)
    ensures d.Keys == ParamNames
    ensures d["hire_date"] == IsoText(e.hireDate)
    ensures forall k :: k in d && k != "hire_date" ==> d[k] == Param(Fields(e), k)
  {
    map["id" := e.id, "name" := Str(e.name), "role" := Str(e.role), "salary" := e.salary,
        "hire_date" := IsoText(e.hireDate), "contact_info" := Map(e.contactInfo),
        "active" := Bool(e.active), "attendance_info" := List(e.attendanceInfo),
        "leave_requests" := List(e.leaveRequests), "meta" := Map(e.meta)]
  }

  /** The argument bound to keyword parameter `k`. */
  function Param(a: Args, k: string): Value
    requires k in ParamNames
  {
    match k
    case "id" => a.id
    case "name" => a.name
    case "role" => a.role
    case "salary" => a.salary
    case "hire_date" => a.hireDate
    case "contact_info" => a.contactInfo
    case "active" => a.active
    case "attendance_info" => a.attendanceInfo
    case "leave_requests" => a.leaveRequests
    case _ => a.meta
  }

  /** Binds the keyword arguments of `cls(**d)`. */
  function Bind(d: map<string, Value>): (a: Args)
    requires d.Keys == ParamNames
    ensures forall k :: k in ParamNames ==> Param(a, k) == d[k]
  {
    Args(d["id"], d["name"], d["role"], d["salary"], d["hire_date"], d["contact_info"],
         d["active"], d["attendance_info"], d["leave_requests"], d["meta"])
  }

  /** `from_dict`: `cls(**d)`. A missing or unexpected key is a TypeError of
      the call itself; otherwise the constructor validates as usual. */
  function FromDict(d: map<string, Value>): (r: Result<Employee>)
    ensures d.Keys != ParamNames ==> r == Err(TypeError)
    ensures d.Keys == ParamNames ==> (r.Ok? <==> WellTyped(Bind(d)))
    ensures d.Keys == ParamNames && r.Err? ==> Validate(Bind(d)) == Err(r.error)
    ensures r.Ok? ==> Valid(r.value)
    ensures r.Ok? ==> forall k :: k in ParamNames ==> Param(Fields(r.value), k) == d[k]
  {
    if d.Keys == ParamNames then New(Bind(d)) else Err(TypeError)
  }
}
