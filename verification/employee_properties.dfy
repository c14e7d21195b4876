/**
 Properties of the personnel record that relate several calls: the order of
 validation messages, the quirks of the name, role, email and salary checks,
 the attendance-log invariant over any sequence of clock calls, and the
 dictionary round trip.
 */
module EmployeeProperties {
  import opened PyValues
  import opened Employees

  // ----- Validation -----

  /** The eleven batched checks, in the order validation runs them, each
      paired with whether it fails. The name and role checks never fail on
      a string; the phone and email checks can only fail on a dict, since on
      a list or a string a present entry makes the lookup raise instead. */
  function Checklist(a: Args): (c: seq<(string, bool)>)
    ensures |c| == 11
  {
    var ci := a.contactInfo;
    [ (IdMsg, !IdOk(a.id)),
      (SalaryMsg, !SalaryOk(a.salary)),
      (NameMsg, false),
      (RoleMsg, false),
      (ContactTypeMsg, !ci.Map?),
      (PhoneMsg, ci.Map? && "phone" in ci.m && !StrIsDigit(ci.m["phone"])),
      (EmailMsg, ci.Map? && "email" in ci.m && "@" !in ci.m && !Truthy(ci.m["email"])),
      (ActiveMsg, !a.active.Bool?),
      (AttendanceMsg, !a.attendanceInfo.List?),
      (LeaveMsg, !a.leaveRequests.List?),
      (MetaMsg, !a.meta.Map?) ]
  }

  /** The messages of the failing checks, in order. */
  function Failing(checks: seq<(string, bool)>): seq<string>
  {
    if |checks| == 0 then []
    else
      var last := checks[|checks| - 1];
      Failing(checks[..|checks| - 1]) + MsgIf(last.1, last.0)
  }

  /** No message is listed exactly when no check fails. */
  lemma {:induction false} NoneFailing(checks: seq<(string, bool)>)
    ensures Failing(checks) == [] <==> forall i :: 0 <= i < |checks| ==> !checks[i].1
  {
    if |checks| > 0 {
      var init := checks[..|checks| - 1];
      NoneFailing(init);
      assert forall i :: 0 <= i < |init| ==> init[i] == checks[i];
    }
  }

  /** Extending a prefix by one check appends that check's message, if it
      fails. */
  lemma FailingPrefix(c: seq<(string, bool)>, k: nat)
    requires k < |c|
    ensures Failing(c[..k + 1]) == Failing(c[..k]) + MsgIf(c[k].1, c[k].0)
  {
    assert c[..k + 1][..k] == c[..k];
  }

  /** The failing messages among the first four checks. */
  lemma FailingOfFirstFour(c: seq<(string, bool)>)
    requires |c| >= 4
    ensures Failing(c[..4])
         == MsgIf(c[0].1, c[0].0) + MsgIf(c[1].1, c[1].0) + MsgIf(c[2].1, c[2].0) + MsgIf(c[3].1, c[3].0)
  {
    assert c[..0] == [];
    FailingPrefix(c, 0);
    assert Failing(c[..1]) == MsgIf(c[0].1, c[0].0);
    FailingPrefix(c, 1);
    assert Failing(c[..2]) == MsgIf(c[0].1, c[0].0) + MsgIf(c[1].1, c[1].0);
    FailingPrefix(c, 2);
    assert Failing(c[..3]) == MsgIf(c[0].1, c[0].0) + MsgIf(c[1].1, c[1].0) + MsgIf(c[2].1, c[2].0);
    FailingPrefix(c, 3);
    assert Failing(c[..4]) == MsgIf(c[0].1, c[0].0) + MsgIf(c[1].1, c[1].0) + MsgIf(c[2].1, c[2].0) + MsgIf(c[3].1, c[3].0);
  }

  /** The failing messages among the first eight checks, from those of the first four. */
  lemma FailingOfNextFour(c: seq<(string, bool)>)
    requires |c| >= 8
    ensures Failing(c[..8])
         == Failing(c[..4]) + MsgIf(c[4].1, c[4].0) + MsgIf(c[5].1, c[5].0) + MsgIf(c[6].1, c[6].0) + MsgIf(c[7].1, c[7].0)
  {
    FailingPrefix(c, 4);
    assert Failing(c[..5]) == Failing(c[..4]) + MsgIf(c[4].1, c[4].0);
    FailingPrefix(c, 5);
    assert Failing(c[..6]) == Failing(c[..4]) + MsgIf(c[4].1, c[4].0) + MsgIf(c[5].1, c[5].0);
    FailingPrefix(c, 6);
    assert Failing(c[..7]) == Failing(c[..4]) + MsgIf(c[4].1, c[4].0) + MsgIf(c[5].1, c[5].0) + MsgIf(c[6].1, c[6].0);
    FailingPrefix(c, 7);
    assert Failing(c[..8]) == Failing(c[..4]) + MsgIf(c[4].1, c[4].0) + MsgIf(c[5].1, c[5].0) + MsgIf(c[6].1, c[6].0) + MsgIf(c[7].1, c[7].0);
  }

  /** The failing messages of eleven checks, one check at a time. */
  lemma {:induction false} FailingOfEleven(c: seq<(string, bool)>)
    requires |c| == 11
    ensures Failing(c)
         == MsgIf(c[0].1, c[0].0) + MsgIf(c[1].1, c[1].0) + MsgIf(c[2].1, c[2].0) + MsgIf(c[3].1, c[3].0)
          + MsgIf(c[4].1, c[4].0) + MsgIf(c[5].1, c[5].0) + MsgIf(c[6].1, c[6].0) + MsgIf(c[7].1, c[7].0)
          + MsgIf(c[8].1, c[8].0) + MsgIf(c[9].1, c[9].0) + MsgIf(c[10].1, c[10].0)
  {
    FailingOfFirstFour(c);
    FailingOfNextFour(c);
    FailingPrefix(c, 8);
    FailingPrefix(c, 9);
    FailingPrefix(c, 10);
    assert c[..11] == c;
  }

  /** When the contact value survives its phone and email lookups, both
      checks report exactly what the checklist says. On a list or a string
      that means neither reports anything. */
  lemma ContactChecksReport(ci: Value)
    requires PhoneCheck(ci).Ok? && EmailCheck(ci).Ok?
    ensures PhoneCheck(ci) == Ok(MsgIf(ci.Map? && "phone" in ci.m && !StrIsDigit(ci.m["phone"]), PhoneMsg))
    ensures EmailCheck(ci)
         == Ok(MsgIf(ci.Map? && "email" in ci.m && "@" !in ci.m && !Truthy(ci.m["email"]), EmailMsg))
  {
  }

  /** Past the name, role and hire date, and with contact lookups that do
      not raise, the collected messages are those of the failing checks. */
  lemma CollectErrorsOfChecklist(a: Args)
    requires a.name.Str? && a.role.Str? && HireDateOk(a.hireDate)
    requires PhoneCheck(a.contactInfo).Ok? && EmailCheck(a.contactInfo).Ok?
    ensures CollectErrors(a) == Ok(Failing(Checklist(a)))
  {
    ContactChecksReport(a.contactInfo);
    FailingOfEleven(Checklist(a));
  }

  /** Once the name, role and hire date are past and the contact lookups do
      not raise, validation raises exactly when some check fails, and the
      message lists the failing checks' messages in check order, one per
      line. This covers a list or string contact value as well as a dict. */
  lemma ValidateJoinsFailingChecks(a: Args)
    requires a.name.Str? && a.role.Str? && HireDateOk(a.hireDate)
    requires PhoneCheck(a.contactInfo).Ok? && EmailCheck(a.contactInfo).Ok?
    ensures var failing := Failing(Checklist(a));
      Validate(a) == if failing == [] then Ok(()) else Err(ValidationError(Join(failing, "\n")))
    ensures Validate(a).Ok? <==> forall i :: 0 <= i < 11 ==> !Checklist(a)[i].1
  {
    CollectErrorsOfChecklist(a);
    NoneFailing(Checklist(a));
  }

  /** When exactly one check fails, its message is the only one listed. */
  lemma {:induction false} FailingSingle(c: seq<(string, bool)>, k: nat)
    requires k < |c| && c[k].1
    requires forall i :: 0 <= i < |c| && i != k ==> !c[i].1
    ensures Failing(c) == [c[k].0]
  {
    var init := c[..|c| - 1];
    if k == |c| - 1 {
      assert forall i :: 0 <= i < |init| ==> init[i] == c[i];
      NoneFailing(init);
    } else {
      assert forall i :: 0 <= i < |init| ==> init[i] == c[i];
      FailingSingle(init, k);
    }
  }

  /** Validation with a single failing check raises that check's message
      alone. */
  lemma LoneFailure(a: Args, k: nat)
    requires a.name.Str? && a.role.Str? && HireDateOk(a.hireDate)
    requires PhoneCheck(a.contactInfo).Ok? && EmailCheck(a.contactInfo).Ok?
    requires k < 11 && Checklist(a)[k].1
    requires forall i :: 0 <= i < 11 && i != k ==> !Checklist(a)[i].1
    ensures Validate(a) == Err(ValidationError(Checklist(a)[k].0))
  {
    ValidateJoinsFailingChecks(a);
    FailingSingle(Checklist(a), k);
  }

  /** A blank id and a negative salary are both reported, in that order. */
  lemma BlankIdAndNegativeSalaryBothReported(a: Args)
    requires WellTyped(a)
    ensures Validate(a.(id := Str(" "), salary := Int(-1)))
         == Err(ValidationError(IdMsg + "\n" + SalaryMsg))
  {
    var b := a.(id := Str(" "), salary := Int(-1));
    assert !IdOk(b.id) by { assert Blank(" ") by { assert IsSpace(' '); } }
    assert !SalaryOk(b.salary);
    FailingOfEleven(Checklist(b));
    var failing := Failing(Checklist(b));
    assert failing == [IdMsg, SalaryMsg];
    assert Join(failing, "\n") == IdMsg + "\n" + SalaryMsg by {
      assert failing[1..] == [SalaryMsg];
    }
    ValidateJoinsFailingChecks(b);
  }

  /** A single bad field is reported alone, under its own message. */
  lemma SingleBadFieldNamed(a: Args, salary: Value, active: Value, meta: Value)
    requires WellTyped(a) && !SalaryOk(salary) && !active.Bool? && !meta.Map?
    ensures Validate(a.(salary := salary)) == Err(ValidationError(SalaryMsg))
    ensures Validate(a.(active := active)) == Err(ValidationError(ActiveMsg))
    ensures Validate(a.(meta := meta)) == Err(ValidationError(MetaMsg))
  {
    LoneFailure(a.(salary := salary), 1);
    LoneFailure(a.(active := active), 7);
    LoneFailure(a.(meta := meta), 10);
  }

  /** The hire-date error is raised on its own, discarding whatever the id
      and salary checks had already collected. */
  lemma HireDateErrorRaisedAlone(a: Args)
    requires a.name.Str? && a.role.Str? && !HireDateOk(a.hireDate)
    requires !IdOk(a.id) && !SalaryOk(a.salary)
    ensures Validate(a) == Err(ValidationError(HireDateMsg))
  {
  }

  /** The name and role checks never fire on a string: the content of a
      string name or role, the empty one included, never changes the
      outcome of validation. */
  lemma {:induction false} NameAndRoleTextIrrelevant(a: Args, name: string, role: string)
    requires a.name.Str? && a.role.Str?
    ensures Validate(a.(name := Str(name), role := Str(role))) == Validate(a)
  {
    var b := a.(name := Str(name), role := Str(role));
    assert CollectErrors(b) == CollectErrors(a) by {
      assert NonStrCheck(b.name, NameMsg) == Ok([]) == NonStrCheck(a.name, NameMsg);
      assert NonStrCheck(b.role, RoleMsg) == Ok([]) == NonStrCheck(a.role, RoleMsg);
      assert PhoneCheck(b.contactInfo) == PhoneCheck(a.contactInfo);
      assert EmailCheck(b.contactInfo) == EmailCheck(a.contactInfo);
    }
  }

  /** A contact dict of just an email. */
  function EmailOnly(email: Value): Value
  {
    Map(map["email" := email])
  }

  /** The email check looks for "@" among the dict's keys, not in the
      address: an address without "@" passes, an empty one fails, and an
      empty one passes again once the dict has an "@" key. */
  lemma EmailCheckTestsKeys(a: Args)
    requires WellTyped(a)
    ensures Validate(a.(contactInfo := EmailOnly(Str("nobody")))) == Ok(())
    ensures Validate(a.(contactInfo := EmailOnly(Str("")))) == Err(ValidationError(EmailMsg))
    ensures Validate(a.(contactInfo := Map(map["email" := Str(""), "@" := PyNone]))) == Ok(())
  {
    LoneFailure(a.(contactInfo := EmailOnly(Str(""))), 6);
  }

  /** A contact value that is a list is reported as not a dict, and its
      "phone" and "email" tests look for list elements. */
  lemma ListContactReported(a: Args)
    requires WellTyped(a)
    ensures Validate(a.(contactInfo := List([]))) == Err(ValidationError(ContactTypeMsg))
    ensures Validate(a.(contactInfo := List([Str("phone")]))) == Err(TypeError)
  {
  }

  /** A list or string contact value is batched like any other fault: its
      type message follows the id's, joined by a newline. */
  lemma NonDictContactBatched(a: Args)
    requires WellTyped(a)
    ensures Validate(a.(id := Other, contactInfo := List([])))
         == Err(ValidationError(IdMsg + "\n" + ContactTypeMsg))
  {
    var b := a.(id := Other, contactInfo := List([]));
    assert PhoneCheck(b.contactInfo) == Ok([]) && EmailCheck(b.contactInfo) == Ok([]);
    ValidateJoinsFailingChecks(b);
    FailingOfEleven(Checklist(b));
    var failing := Failing(Checklist(b));
    assert failing == [IdMsg, ContactTypeMsg];
    assert Join(failing, "\n") == IdMsg + "\n" + ContactTypeMsg by {
      assert failing[1..] == [ContactTypeMsg];
    }
  }

  /** A string contact value is reported as not a dict when it contains
      neither "phone" nor "email" as a substring. */
  lemma StringContactReported(a: Args)
    requires WellTyped(a)
    ensures Validate(a.(contactInfo := Str("n/a"))) == Err(ValidationError(ContactTypeMsg))
  {
    assert !Occurs("phone", "n/a") && !Occurs("email", "n/a");
    LoneFailure(a.(contactInfo := Str("n/a")), 4);
  }

  // ----- Salary and contact -----

  /** Zero is a valid salary for validation, yet `update_salary` refuses it. */
  lemma ZeroSalaryValidButNotUpdatable(e: Employee)
    ensures SalaryOk(Int(0))
    ensures UpdateSalary(e, Int(0)) == Raised(e, ValidationError(SalaryPositiveMsg))
  {
  }

  /** A successful salary update keeps the record valid. */
  lemma UpdateSalaryKeepsValid(e: Employee, s: Value)
    requires Valid(e) && UpdateSalary(e, s).Returned?
    ensures Valid(UpdateSalary(e, s).state)
  {
  }

  /** `update_contact` does not re-run validation. Merging an empty email
      into a valid record whose contact has no "@" key succeeds, but leaves
      a record that validation rejects: its dictionary form no longer goes
      through `from_dict`, which raises the email message alone. */
  lemma UpdateContactCanInvalidate(e: Employee)
    requires Valid(e) && "@" !in e.contactInfo
    ensures var r := UpdateContact(e, EmailOnly(Str("")));
      && r.Returned?
      && !Valid(r.state)
      && FromDict(ToDict(r.state)) == Err(ValidationError(EmailMsg))
  {
    var e' := UpdateContact(e, EmailOnly(Str(""))).state;
    EmptyEmailMerge(e);
    var a := Bind(ToDict(e'));
    ToDictBindsFields(e');
    assert a.contactInfo == Map(e'.contactInfo);
    assert Checklist(a)[6].1;
    LoneFailure(a, 6);
  }

  /** Merging an empty email: the call returns, and the contact map gains
      the empty email and keeps every other entry, including the phone. */
  lemma EmptyEmailMerge(e: Employee)
    ensures var r := UpdateContact(e, EmailOnly(Str("")));
      && r.Returned?
      && r.state == e.(contactInfo := e.contactInfo["email" := Str("")])
  {
  }

  /** With an "@" key in the contact, the same merge keeps the record
      valid: the email check never fires on such a contact. */
  lemma AtKeyShieldsEmptyEmail(e: Employee)
    requires Valid(e) && "@" in e.contactInfo
    ensures var r := UpdateContact(e, EmailOnly(Str("")));
      r.Returned? && Valid(r.state)
  {
    var m := UpdateContact(e, EmailOnly(Str(""))).state.contactInfo;
    assert "@" in m;
    assert "phone" in m ==> m["phone"] == e.contactInfo["phone"];
  }

  /** A merge that brings no falsy email keeps the record valid. */
  lemma UpdateContactKeepsValid(e: Employee, c: Value)
    requires Valid(e) && UpdateContact(e, c).Returned?
    requires "email" in c.m ==> Truthy(c.m["email"])
    ensures Valid(UpdateContact(e, c).state)
  {
    var m := UpdateContact(e, c).state.contactInfo;
    assert "phone" in m ==> StrIsDigit(m["phone"]);
    assert "email" in m && "@" !in m ==> Truthy(m["email"]);
  }

  /** An empty phone is refused: `"".isdigit()` is false. */
  lemma EmptyPhoneRefused(e: Employee)
    ensures UpdateContact(e, Map(map["phone" := Str("")])) == Raised(e, ValidationError(NewPhoneMsg))
  {
  }

  // ----- Attendance -----

  /** Clocking in twice without clocking out fails the second time. */
  lemma ClockInTwiceFails(e: Employee, t1: int, t2: int)
    requires ClockIn(e, t1).Returned?
    ensures var e1 := ClockIn(e, t1).state;
      ClockIn(e1, t2) == Raised(e1, AttendanceError(AlreadyClockedInMsg))
  {
    var e1 := ClockIn(e, t1).state;
    assert e1.attendanceInfo[|e1.attendanceInfo| - 1] == OpenEntry(t1);
  }

  /** Clocking out of an empty log fails. */
  lemma ClockOutOfEmptyLogFails(e: Employee, t: int)
    requires e.attendanceInfo == []
    ensures ClockOut(e, t) == Raised(e, AttendanceError(NotClockedInMsg))
  {
  }

  /** Clocking in and out 90 seconds apart records 1.5 minutes. */
  lemma NinetySecondsIsOneAndAHalfMinutes(e: Employee, t: int)
    requires ClockIn(e, t).Returned?
    ensures var e1 := ClockIn(e, t).state;
      var r := ClockOut(e1, t + 90);
      && r.Returned?
      && r.state.attendanceInfo[|e1.attendanceInfo| - 1].m["duration_minutes"] == Float(1.5)
  {
    var e1 := ClockIn(e, t).state;
    var n := |e1.attendanceInfo|;
    assert e1.attendanceInfo[n - 1] == OpenEntry(t);
    assert ClosableEntry(e1.attendanceInfo[n - 1]);
    var d := ClockOut(e1, t + 90).state.attendanceInfo[n - 1].m["duration_minutes"];
    assert d.x * 60.0 == 90.0;
  }

  /** Neither clock call ever leaves an entry other than the last one open,
      whatever it returns or raises. */
  lemma ClockCallsKeepEarlierEntriesClosed(e: Employee, t: int)
    requires AllButLastClosed(e.attendanceInfo)
    ensures AllButLastClosed(ClockIn(e, t).state.attendanceInfo)
    ensures AllButLastClosed(ClockOut(e, t).state.attendanceInfo)
  {
    var log := e.attendanceInfo;
    var r := ClockOut(e, t);
    if |log| > 0 {
      forall i | 0 <= i < |log| - 1
        ensures Closed(r.state.attendanceInfo[i])
      {
        assert r.state.attendanceInfo[i] == r.state.attendanceInfo[..|log| - 1][i];
      }
    }
  }

  /** On a well-formed log the clock calls keep it well-formed, and the
      only thing they ever raise is AttendanceError: the lookups and the
      timestamp parse of `clock_out` cannot fail. */
  lemma ClockCallsOnWellFormedLog(e: Employee, t: int)
    requires WellFormedLog(e.attendanceInfo)
    ensures WellFormedLog(ClockIn(e, t).state.attendanceInfo)
    ensures WellFormedLog(ClockOut(e, t).state.attendanceInfo)
    ensures ClockIn(e, t).Raised? ==> ClockIn(e, t).error == AttendanceError(AlreadyClockedInMsg)
    ensures ClockOut(e, t).Raised? ==> ClockOut(e, t).error == AttendanceError(NotClockedInMsg)
  {
    ClockCallsKeepEarlierEntriesClosed(e, t);
    ClockInKeepsShape(e, t);
    ClockOutKeepsShape(e, t);
  }

  lemma ClockInKeepsShape(e: Employee, t: int)
    requires WellFormedLog(e.attendanceInfo)
    ensures forall i :: 0 <= i < |ClockIn(e, t).state.attendanceInfo| ==> Shaped(ClockIn(e, t).state.attendanceInfo[i])
  {
    var log := e.attendanceInfo;
    var rin := ClockIn(e, t).state.attendanceInfo;
    if ClockIn(e, t).Returned? {
      forall i | 0 <= i < |rin|
        ensures Shaped(rin[i])
      {
        if i < |log| {
          assert rin[i] == rin[..|log|][i];
        }
      }
    }
  }

  lemma ClockOutKeepsShape(e: Employee, t: int)
    requires WellFormedLog(e.attendanceInfo)
    ensures forall i :: 0 <= i < |ClockOut(e, t).state.attendanceInfo| ==> Shaped(ClockOut(e, t).state.attendanceInfo[i])
  {
    var log := e.attendanceInfo;
    var rout := ClockOut(e, t).state.attendanceInfo;
    if |log| > 0 {
      forall i | 0 <= i < |rout|
        ensures Shaped(rout[i])
      {
        if i < |log| - 1 {
          assert rout[i] == rout[..|log| - 1][i];
        }
      }
    }
  }

  /** A clock call, as a caller would issue it. */
  datatype ClockCall = ClockInAt(t: int) | ClockOutAt(t: int)

  function Apply(e: Employee, c: ClockCall): Step<Employee, bool>
  {
    match c
    case ClockInAt(t) => ClockIn(e, t)
    case ClockOutAt(t) => ClockOut(e, t)
  }

  /** The record after a sequence of clock calls, each made on the state the
      previous one left, whether it returned or raised. */
  function Run(e: Employee, calls: seq<ClockCall>): Employee
    decreases |calls|
  {
    if |calls| == 0 then e else Run(Apply(e, calls[0]).state, calls[1..])
  }

  /** Any sequence of clock calls on a well-formed log leaves it
      well-formed, with every entry but the last closed. */
  lemma {:induction false} RunKeepsLogWellFormed(e: Employee, calls: seq<ClockCall>)
    requires WellFormedLog(e.attendanceInfo)
    ensures WellFormedLog(Run(e, calls).attendanceInfo)
    decreases |calls|
  {
    if |calls| > 0 {
      ClockCallsOnWellFormedLog(e, calls[0].t);
      RunKeepsLogWellFormed(Apply(e, calls[0]).state, calls[1..]);
    }
  }

  /** Clock calls touch nothing but the attendance log. */
  lemma {:induction false} RunTouchesOnlyAttendance(e: Employee, calls: seq<ClockCall>)
    ensures Run(e, calls).(attendanceInfo := e.attendanceInfo) == e
    decreases |calls|
  {
    if |calls| > 0 {
      RunTouchesOnlyAttendance(Apply(e, calls[0]).state, calls[1..]);
    }
  }

  // ----- Leave requests -----

  /** A start after the end is refused; the reverse order is accepted and
      appends one pending request. */
  lemma LeaveOrderExamples(e: Employee, reason: Value, id: string)
    ensures RequestLeave(e, "2025-01-10", "2025-01-01", reason, id)
         == Raised(e, ValidationError(LeaveOrderMsg))
    ensures var r := RequestLeave(e, "2025-01-01", "2025-01-10", reason, id);
      && r.Returned?
      && |r.state.leaveRequests| == |e.leaveRequests| + 1
      && r.state.leaveRequests[|e.leaveRequests|].m["status"] == Str("pending")
  {
    assert StrLess("2025-01-01", "2025-01-10");
    StrLessTrichotomy("2025-01-01", "2025-01-10");
  }

  /** Equal dates are accepted. */
  lemma SameDayLeaveAccepted(e: Employee, day: string, reason: Value, id: string)
    ensures RequestLeave(e, day, day, reason, id).Returned?
  {
    StrLessTrichotomy(day, day);
  }

  // ----- Activation -----

  lemma ActivationIdempotent(e: Employee, reason: Value)
    ensures Activate(Activate(e)) == Activate(e)
    ensures Deactivate(Deactivate(e, reason), reason) == Deactivate(e, reason)
  {
  }

  /** Validity depends only on the id, the salary, the hire date and the
      contact map; the flag, the logs and the metadata always have their
      accepted type in a record. */
  lemma ValidIgnoresUncheckedFields(e: Employee, e2: Employee)
    requires Valid(e)
    requires e2.id == e.id && e2.salary == e.salary && e2.hireDate == e.hireDate
    requires e2.contactInfo == e.contactInfo
    ensures Valid(e2)
  {
  }

  /** The record stays valid through the calls that only append, flip the
      flag or replace a positive salary. */
  lemma OperationsKeepValid(e: Employee, t: int, reason: Value, s: string, f: string, id: string)
    requires Valid(e)
    ensures Valid(ClockIn(e, t).state) && Valid(ClockOut(e, t).state)
    ensures Valid(RequestLeave(e, s, f, reason, id).state)
    ensures Valid(Activate(e)) && Valid(Deactivate(e, reason))
  {
    ValidIgnoresUncheckedFields(e, ClockIn(e, t).state);
    ValidIgnoresUncheckedFields(e, ClockOut(e, t).state);
    ValidIgnoresUncheckedFields(e, RequestLeave(e, s, f, reason, id).state);
    ValidIgnoresUncheckedFields(e, Activate(e));
    ValidIgnoresUncheckedFields(e, Deactivate(e, reason));
  }

  // ----- Dictionary round trip -----

  /** `from_dict(to_dict(e))` rebuilds a valid record field for field, with
      the hire date in its text form. */
  lemma RoundTrip(e: Employee)
    requires Valid(e)
    ensures FromDict(ToDict(e)) == Ok(e.(hireDate := IsoText(e.hireDate)))
  {
    ToDictBindsFields(e);
    assert WellTyped(Bind(ToDict(e)));
  }

  /** The keyword arguments `from_dict` passes for `to_dict`'s output are
      the record's own fields, with the hire date in its text form. */
  lemma ToDictBindsFields(e: Employee)
    ensures Bind(ToDict(e)) == Fields(e).(hireDate := IsoText(e.hireDate))
  {
  }

  /** The other direction: a dict `from_dict` accepts comes back from
      `to_dict` unchanged but for the hire date's text form. */
  lemma DictRoundTrip(d: map<string, Value>)
    requires FromDict(d).Ok?
    ensures ToDict(FromDict(d).value) == d["hire_date" := IsoText(d["hire_date"])]
  {
    var e := FromDict(d).value;
    var d' := ToDict(e);
    forall k | k in ParamNames
      ensures d'[k] == d["hire_date" := IsoText(d["hire_date"])][k]
    {
    }
  }
}
