# Personnel records: employee and production worker

A Dafny model of the two record classes of the workforce code base:

- `Employee` (src/employee.py) is the base personnel record. Construction stores ten attributes and validates them. Most violations are batched into one `ValidationError`. The record also has a salary update, a contact merge, a clock-in/clock-out attendance log, leave requests, an activation flag and a `to_dict`/`from_dict` round trip.
- `Worker` (src/worker.py) extends it with a unit assignment, a shift, a skill list, an IDLE/WORKING task state machine and a productivity ledger whose total is recomputed on every `record_output`.

Files:

- `python_values.dfy`, module `PyValues`: the Python values the checks can tell apart (`None`, bool, int, float, str, datetime, list, dict, other). It also models truthiness, `str(v).isdigit()`, `str.strip()`, the `in` operator, subscripting, string ordering and `"\n".join`. Finally it defines the exceptions a call can end with: `ValidationError` and `AttendanceError` with their exact messages, plus Python's `TypeError`, `AttributeError`, `KeyError` and `ValueError`.
- `employee.dfy`, module `Employees`: the constructor arguments (`Args`), the constructed record (`Employee`), validation, and every `Employee` method.
- `employee_properties.dfy`, module `EmployeeProperties`: lemmas that relate several calls. They cover message order, the quirks, the attendance-log invariant over any sequence of clock calls, and the round trip.
- `worker.dfy`, module `Workers`, and `worker_properties.dfy`, module `WorkerProperties`: the same for `Worker`.

Every method is a pure function. A method that changes the record and can raise returns a `Step`; `validate`, the constructors and `from_dict` return a `Result`. A `Step` holds the record as the call leaves it, plus either the returned value or the raised error. Python mutates in place, so a call that raises after a write keeps that write. This happens in two places:
- `clock_out` writes `clock_out` into the last entry before it reads `clock_in`.
- `record_output` appends before it sums the ledger.

Inputs the source takes from the machine become parameters:
- every `datetime.now()` reading is an integer timestamp in seconds;
- the leave-request id is a string argument.

## Behaviour as written

The model follows the code, including these points:

- The name and role checks never report anything. They fire only for a value that is not a string and whose stripped text is empty. A string therefore always passes, including the empty one. Any other value has no `strip` method, so the check raises `AttributeError` before a message can be added.
- The email check tests whether the contact dict has an `"@"` key. It never looks inside the address. So `{"email": "nobody"}` passes, and `{"email": ""}` fails.
- `update_salary` refuses 0, which validation accepts.
- `update_contact` checks only the new contact's type and phone. It does not re-run validation on the merged record. Take a valid record whose contact has no `"@"` key. Merging `{"email": ""}` into it succeeds, but leaves a record that validation rejects. The record's `to_dict` output then makes `from_dict` raise the email message (`UpdateContactCanInvalidate`). With an `"@"` key in the contact, the same merge keeps the record valid (`AtKeyShieldsEmptyEmail`).
- `assign_to_unit` writes `assign_to_unit_id`, not `assigned_unit_id`. The constructor's `assigned_unit_id` never changes.
- A bool is an int in Python. So `True` is accepted as an id, a salary and a quantity.

## Model

| member | source | states |
|---|---|---|
| Employees.Validate | src/employee.py:239-289 | Validation succeeds exactly when every argument has the accepted type. A non-string name or role raises AttributeError. A hire date that is neither datetime nor string raises its ValidationError alone. A contact value that supports no `in` raises TypeError. So does a list or string contact that contains "phone", or contains "email" but not "@": the lookup then indexes it with a string key. |
| EmployeeProperties.ValidateJoinsFailingChecks | src/employee.py:242-289 | Assume the name, role and hire date checks pass, and the contact's phone and email lookups do not raise. The contact may be a dict, a list or a string. Validation raises exactly when one of the eleven checks fails. The message joins the failing checks' messages with "\n", in check order, with the contact-type message after the salary one. |
| EmployeeProperties.NoneFailing | src/employee.py:287-289 | The joined list of failing messages is empty exactly when no check fails. So `errors` is empty exactly when every check passes. |
| EmployeeProperties.LoneFailure | src/employee.py:242-289 | When exactly one check fails, validation raises that check's message alone. |
| EmployeeProperties.NonDictContactBatched | src/employee.py:243-289 | A bad id together with a list contact is batched: the id message, a newline, then the contact-type message. |
| EmployeeProperties.StringContactReported | src/employee.py:263-289 | A string contact that contains neither "phone" nor "email" raises the contact-type message alone. |
| EmployeeProperties.BlankIdAndNegativeSalaryBothReported | src/employee.py:242-248 | A blank id and a negative salary are both reported, id first. |
| EmployeeProperties.SingleBadFieldNamed | src/employee.py:246-284 | A single bad salary, flag or metadata argument is reported alone, under its own message. |
| EmployeeProperties.HireDateErrorRaisedAlone | src/employee.py:258-260 | A bad hire date raises its own message, and errors already collected for the id and salary are dropped. |
| EmployeeProperties.NameAndRoleTextIrrelevant | src/employee.py:250-256 | The text of a string name or role never changes the outcome of validation. |
| EmployeeProperties.EmailCheckTestsKeys | src/employee.py:267-268 | An address without "@" passes and an empty one fails. An empty one passes again when the dict has an "@" key. |
| EmployeeProperties.ListContactReported | src/employee.py:263-266 | A list contact is reported as not a dict. A list containing "phone" makes the lookup raise TypeError. |
| Employees.New | src/employee.py:63-77 | Construction succeeds exactly when validation does. The record then holds the arguments as given. Otherwise it raises validation's error. |
| Employees.UpdateSalary | src/employee.py:106-110 | The update succeeds exactly for a number > 0 and then replaces only the salary. A non-number raises TypeError. Zero and negatives raise ValidationError. A refused call leaves the record unchanged. |
| EmployeeProperties.ZeroSalaryValidButNotUpdatable | src/employee.py:106-110 | 0 passes validation, but the salary update refuses it. |
| EmployeeProperties.UpdateSalaryKeepsValid | src/employee.py:106-110 | A successful salary update keeps the record valid. |
| Employees.UpdateContact | src/employee.py:137-144 | A non-dict, or a phone that does not print as digits, raises ValidationError and changes nothing. Otherwise the call returns True, and the contact map becomes the old one overridden by the new one. Absent keys are preserved. |
| EmployeeProperties.UpdateContactCanInvalidate | src/employee.py:137-144 | The merge does not re-validate. Take a valid record whose contact has no "@" key. Merging an empty email succeeds, and the result is invalid. Its `to_dict` output makes `from_dict` raise the email message alone. |
| EmployeeProperties.AtKeyShieldsEmptyEmail | src/employee.py:137-144 | With an "@" key in the contact, merging an empty email keeps the record valid. |
| EmployeeProperties.UpdateContactKeepsValid | src/employee.py:137-144 | A merge that brings no falsy email keeps the record valid. |
| EmployeeProperties.EmptyPhoneRefused | src/employee.py:140-141 | An empty phone is refused, because `"".isdigit()` is false. |
| Employees.ClockIn | src/employee.py:146-159 | The call succeeds exactly on an empty log or a closed last entry. It then appends one open entry `{clock_in: t}` and leaves earlier entries alone. An open last entry raises AttendanceError and changes nothing. |
| Employees.ClockOut | src/employee.py:161-185 | An empty log or a closed last entry raises AttendanceError and changes nothing. The call succeeds exactly when the last entry is a dict with no clock_out and with a timestamp clock_in. Only that entry gains clock_out = t and duration_minutes, where duration × 60 = t − clock_in. Take a dict last entry without clock_out whose clock_in is missing or not a timestamp. The call raises KeyError or ValueError, and the last entry keeps the clock_out write. A last entry that is not a dict raises and changes nothing. No other entry or field changes. |
| EmployeeProperties.ClockInTwiceFails | src/employee.py:152-153 | A second clock-in without a clock-out raises AttendanceError. |
| EmployeeProperties.ClockOutOfEmptyLogFails | src/employee.py:167-168 | Clocking out of an empty log raises AttendanceError. |
| EmployeeProperties.NinetySecondsIsOneAndAHalfMinutes | src/employee.py:171-183 | A clock-in followed by a clock-out 90 s later records 1.5 minutes. |
| EmployeeProperties.ClockCallsKeepEarlierEntriesClosed | src/employee.py:146-185 | Whatever either clock call returns or raises, every entry but the last stays closed. |
| EmployeeProperties.ClockCallsOnWellFormedLog | src/employee.py:146-185 | On a well-formed log, both clock calls keep it well-formed, and the only error either raises is AttendanceError. |
| EmployeeProperties.RunKeepsLogWellFormed | src/employee.py:146-185 | Any sequence of clock calls keeps a well-formed log well-formed. |
| EmployeeProperties.RunTouchesOnlyAttendance | src/employee.py:146-185 | Clock calls change nothing but the attendance log. |
| Employees.RequestLeave | src/employee.py:187-208 | The call raises ValidationError exactly when start > end in string order, and then changes nothing. Otherwise it appends exactly one entry {id, start_date, end_date, reason, status = "pending"} and returns its id. |
| EmployeeProperties.LeaveOrderExamples | src/employee.py:187-208 | 2025-01-10 to 2025-01-01 is refused. 2025-01-01 to 2025-01-10 appends one pending request. |
| EmployeeProperties.SameDayLeaveAccepted | src/employee.py:189-190 | A leave whose start equals its end is accepted. |
| PyValues.StrLessTrichotomy | src/employee.py:189 | The string order the leave check uses is strict and total. |
| PyValues.IntStrIsDigit | src/employee.py:140 | `str(i).isdigit()` holds exactly for non-negative integers. |
| Employees.Activate | src/employee.py:229-231 | The flag is set, and nothing else changes. |
| Employees.Deactivate | src/employee.py:233-237 | The flag is cleared. A truthy reason is stored under termination_reason, with the other metadata kept. A falsy reason leaves the metadata unchanged. Nothing else changes. |
| EmployeeProperties.ActivationIdempotent | src/employee.py:229-237 | Activating or deactivating twice equals doing it once. |
| EmployeeProperties.OperationsKeepValid | src/employee.py:146-237 | Clock calls, leave requests and the flag changes keep a valid record valid. |
| Employees.ToDict | src/employee.py:210-220 | The keys are exactly the constructor parameters. A datetime hire date becomes its ISO text. Every other value is the attribute. |
| Employees.FromDict | src/employee.py:222-227 | A dict whose keys are not exactly the parameters raises TypeError. Otherwise the constructor's validation decides the result. The call succeeds exactly when the bound arguments are well typed, and a failure raises validation's error. An accepted dict gives a valid record whose attributes are its values. |
| EmployeeProperties.RoundTrip | src/employee.py:210-227 | `from_dict(to_dict(e))` rebuilds a valid `e` field for field, with the hire date as text. |
| EmployeeProperties.DictRoundTrip | src/employee.py:210-227 | `to_dict(from_dict(d))` gives back `d`, with the hire date as text. |
| Workers.NewWorker | src/worker.py:11-25 | Employee validation runs first and decides success. The worker fields are stored unchecked. Missing skills and records become empty lists, and `assign_to_unit_id` is absent. |
| WorkerProperties.DefaultsOfNewWorker | src/worker.py:11-25 | With the defaults, the worker starts idle: no skills, empty ledger, no unit, no shift, wage type "salary". |
| WorkerProperties.WorkerFieldsUnchecked | src/worker.py:19-25 | Any worker-specific arguments give a worker when the employee arguments are valid. |
| Workers.AssignToUnit | src/worker.py:41-44 | An inactive worker raises ValidationError and changes nothing. An active one gets `assign_to_unit_id` set, and `assigned_unit_id` is untouched. |
| WorkerProperties.AssignmentFollowsActivation | src/worker.py:20-44 | After deactivation the assignment fails. After activation it succeeds and changes only the misspelled attribute. |
| Workers.AssignShift | src/worker.py:46-55 | Only the shift changes. |
| Workers.AddSkill | src/worker.py:57-68 | A listed skill leaves the worker unchanged. A new skill is appended. Nothing else changes. |
| WorkerProperties.AddSkillIdempotent | src/worker.py:57-68 | Adding a skill twice equals adding it once. |
| WorkerProperties.AddNewSkillTwiceListsItOnce | src/worker.py:57-68 | A new skill added twice is listed exactly once. |
| Workers.RemoveSkills | src/worker.py:70-80 | An absent skill leaves the worker unchanged. Otherwise exactly one copy leaves the skill multiset. |
| WorkerProperties.RemoveSkillsCutsFirstOccurrence | src/worker.py:70-80 | Removing a listed skill cuts out its first occurrence and keeps the other skills in order. |
| WorkerProperties.RemoveFirstCutsFirstOccurrence | src/worker.py:79-80 | Removal cuts out exactly the first occurrence and keeps the order of the rest. |
| WorkerProperties.SkillsStayDuplicateFree | src/worker.py:57-80 | Add and remove keep a duplicate-free list duplicate-free. Removal then removes the skill entirely. |
| Workers.StartTask | src/worker.py:82-102 | A task in progress raises AttendanceError and changes nothing. Otherwise the task stamped with start_time becomes current, and the ledger is unchanged. |
| Workers.StopTask | src/worker.py:104-120 | With no task, the call raises AttendanceError. Otherwise the task stamped with end_time is appended to the ledger, and the current task is cleared. |
| WorkerProperties.StartTaskTwiceFails | src/worker.py:96-98 | Starting a second task without stopping raises AttendanceError. |
| WorkerProperties.StopWithoutTaskFails | src/worker.py:113-114 | Stopping with no task raises AttendanceError. |
| WorkerProperties.StartThenStop | src/worker.py:82-120 | Start then stop returns to idle, with the task stamped with both times appended to the ledger. |
| Workers.RecordOutput | src/worker.py:141-152 | A non-number raises TypeError. A quantity ≤ 0 raises ValidationError, and the ledger is unchanged. A positive one appends {quantity, timestamp}, and the call returns the ledger's total. It fails only if the earlier ledger holds a non-numeric quantity. |
| WorkerProperties.TotalAppend | src/worker.py:151 | The total is a fold: appending an entry adds its quantity, with 0 for an entry that has none. |
| WorkerProperties.RecordOutputAddsQuantity | src/worker.py:141-152 | The returned total is the previous total plus the quantity. |
| WorkerProperties.TaskWithoutQuantityAddsNothing | src/worker.py:116-151 | A finished task without a quantity leaves the total unchanged. |
| WorkerProperties.RecordOutputExample | src/worker.py:141-152 | On an empty ledger, recording 100 returns 100, and then recording 50 returns 150. |
| WorkerProperties.NonPositiveQuantitiesRefused | src/worker.py:141-142 | Quantities 0 and −1 raise ValidationError, and nothing changes. |

## Left out

- The module-level manual test scripts (src/employee.py:293-374, src/worker.py:191-251) are not modelled. Neither is the side effect of running the employee script when `worker.py` imports it.
- `get_details` (src/employee.py:79-104) formats the hire date with `str()`. It is string formatting only.
- Wall-clock reads are parameters:
  - `datetime.now()` for the `timestamp=None` defaults, task times and output timestamps;
  - the second-granular `strftime` leave-request id.
- Timestamps are integers, not ISO strings. `fromisoformat` becomes "is an integer". A stored `clock_in` that is not one raises ValueError in the model. Python raises ValueError for unparseable text and TypeError for non-strings.
- Employees.ClockOut: the duration is the exact rational (out − in)/60. The source's float division and `round(…, 2)` are not modelled.
- Float arithmetic in general is not modelled: salaries, quantities and the output total are exact reals. There is no NaN, no infinity and no int/float distinction in the returned total.
- `Worker.to_dict` and `Worker.from_dict` (src/worker.py:154-188) are not provided because the source has no working round trip for them:
  - `super.to_dict()` looks the method up on the builtin `super` type, not on the parent;
  - `to_dict` reads `assign_to_unit_id`, which may not exist;
  - `from_dict` returns its argument unchanged.
- Python aliasing is not modelled: `start_task` stamping the caller's dict, `to_dict` being a shallow copy that shares lists, and constructor lists being shared with the caller.
- Character classes are ASCII only: `isdigit` accepts only '0'–'9', and `isspace` in `strip` covers only the ASCII whitespace characters.
- Dictionary keys are strings. Python's cross-type equality (`1 == True == 1.0`) does not take part in list membership.
- `Other` stands for a value outside the modelled kinds that has no `strip`, supports neither `in` nor subscripting, prints with a non-digit and is truthy: a `datetime.date`, `object()` or an instance of a plain class. Sets, tuples, bytes and objects that define `__contains__`, `__bool__` or `strip` behave otherwise and are not modelled.
- Employees.RequestLeave: start and end dates are strings compared by code point. Dates compared as `datetime` values are not modelled.
- Workers.StartTask, Workers.AddSkill, Workers.RemoveSkills: the task is a dict and a skill is a string, the types the parameters document. The source raises TypeError when the task is not a dict, and its skill methods accept any value; those inputs are not modelled.
- Workers.NewWorker: `skills` is a list of strings or None, `current_task` a dict or None, and `productivity_records` a list of dicts or None. The source stores any other value unchecked and fails later; those values are not modelled.
- `Employee` methods called on a `Worker` apply to its `base` record. They are not repeated as `Worker` functions.
