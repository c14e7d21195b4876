/**
 The production worker of src/worker.py: an employee plus a unit
 assignment, a shift, a skill list, at most one task in progress and a
 productivity ledger of finished tasks and recorded output. Every employee
 operation applies to `base`; the worker's own operations are below.
 Wall-clock reads are parameters: timestamps are integer seconds.
 */
module Workers {
  import opened PyValues
  import opened Employees

  const InactiveMsg := "Cannot assign unit to an inactive worker."
  const AlreadyWorkingMsg := "Already working on a task."
  const NoTaskMsg := "No active task to stop."
  const QuantityMsg := "Quantity must be a non negative number."

  /** The worker-specific constructor parameters; `None` stands for the
      Python default `None`. */
  datatype WorkerArgs = WorkerArgs(
    assignedUnitId: Value,
    shift: Value,
    skills: Option<seq<string>>,
    currentTask: Option<map<string, Value>>,
    productivityRecords: Option<seq<map<string, Value>>>,
    wageType: Value)

  /** The parameters a caller leaves out. */
  const DefaultWorkerArgs := WorkerArgs(PyNone, PyNone, None, None, None, Str("salary"))

  /** A constructed worker. `assignToUnitId` is the attribute
      `assign_to_unit` writes, absent (`None`) until the first assignment;
      it is a different attribute from `assignedUnitId`. */
  datatype Worker = Worker(
    base: Employee,
    assignedUnitId: Value,
    shift: Value,
    skills: seq<string>,
    currentTask: Option<map<string, Value>>,
    productivityRecords: seq<map<string, Value>>,
    wageType: Value,
    assignToUnitId: Option<Value>)

  /** `Worker.__init__`: the employee constructor (and its validation) runs
      first; the worker's own parameters are stored without any check,
      missing lists becoming fresh empty ones. */
  function NewWorker(a: Args, w: WorkerArgs): (r: Result<Worker>)
    ensures r.Ok? <==> WellTyped(a)
    ensures r.Err? ==> New(a) == Err(r.error)
    ensures r.Ok? ==>
      && New(a) == Ok(r.value.base)
      && r.value.assignedUnitId == w.assignedUnitId
      && r.value.shift == w.shift
      && r.value.skills == (if w.skills.Some? then w.skills.value else [])
      && r.value.currentTask == w.currentTask
      && r.value.productivityRecords == (if w.productivityRecords.Some? then w.productivityRecords.value else [])
      && r.value.wageType == w.wageType
      && r.value.assignToUnitId == None
  {
    var e :- New(a);
    Ok(Worker(e, w.assignedUnitId, w.shift,
              match w.skills case Some(s) => s case None => [],
              w.currentTask,
              match w.productivityRecords case Some(p) => p case None => [],
              w.wageType, None))
  }

  // ----- Assignment -----

  /** `assign_to_unit(u)`: refused for an inactive worker; otherwise writes
      the misspelled attribute `assign_to_unit_id`, so `assigned_unit_id`
      keeps whatever the constructor stored. */
  function AssignToUnit(w: Worker, unitId: Value): (r: Step<Worker, ()>)
    ensures r.Raised? <==> !w.base.active
    ensures r.Raised? ==> r == Raised(w, ValidationError(InactiveMsg))
    ensures r.Returned? ==>
      && r.state.assignToUnitId == Some(unitId)
      && r.state.assignedUnitId == w.assignedUnitId
      && r.state.(assignToUnitId := w.assignToUnitId) == w
  {
    if !w.base.active then Raised(w, ValidationError(InactiveMsg))
    else Returned(w.(assignToUnitId := Some(unitId)), ())
  }

  /** `assign_shift(label)`: stores the label, unchecked. */
  function AssignShift(w: Worker, shiftLabel: Value): (r: Worker)
    ensures r.shift == shiftLabel && r.(shift := w.shift) == w
  {
    w.(shift := shiftLabel)
  }

  // ----- Skills -----

  /** `add_skill(s)`: appends `s` unless it is already listed. */
  function AddSkill(w: Worker, skill: string): (r: Worker)
    ensures skill in r.skills
    ensures skill in w.skills ==> r == w
    ensures skill !in w.skills ==> r.skills == w.skills + [skill]
    ensures r.(skills := w.skills) == w
  {
    if skill in w.skills then w else w.(skills := w.skills + [skill])
  }

  /** `list.remove(x)`: drops the first element equal to `x`. */
  function RemoveFirst<T(==)>(xs: seq<T>, x: T): (r: seq<T>)
    ensures x !in xs ==> r == xs
    ensures x in xs ==> |r| == |xs| - 1
    ensures multiset(r) == multiset(xs) - multiset{x}
  {
    if |xs| == 0 then []
    else
      assert xs == [xs[0]] + xs[1..];
      if xs[0] == x then xs[1..] else [xs[0]] + RemoveFirst(xs[1..], x)
  }

  /** `remove_skills(s)`: removes the first occurrence of `s`, if any. */
  function RemoveSkills(w: Worker, skill: string): (r: Worker)
    ensures skill !in w.skills ==> r == w
    ensures skill in w.skills ==> multiset(r.skills) == multiset(w.skills) - multiset{skill}
    ensures r.(skills := w.skills) == w
  {
    if skill in w.skills then w.(skills := RemoveFirst(w.skills, skill)) else w
  }

  // ----- Tasks and output -----

  /** `start_task(info)`: refused while a task is in progress; otherwise
      the task, stamped with its start time, becomes the current one. */
  function StartTask(w: Worker, taskInfo: map<string, Value>, t: int): (r: Step<Worker, bool>)
    ensures r.Raised? <==> w.currentTask.Some?
    ensures r.Raised? ==> r == Raised(w, AttendanceError(AlreadyWorkingMsg))
    ensures r.Returned? ==>
      && r.value
      && r.state.currentTask.Some?
      && r.state.currentTask.value.Keys == taskInfo.Keys + {"start_time"}
      && r.state.currentTask.value["start_time"] == Int(t)
      && (forall k :: k in taskInfo && k != "start_time" ==> r.state.currentTask.value[k] == taskInfo[k])
      && r.state.(currentTask := w.currentTask) == w
  {
    if w.currentTask.Some? then Raised(w, AttendanceError(AlreadyWorkingMsg))
    else Returned(w.(currentTask := Some(taskInfo["start_time" := Int(t)])), true)
  }

  /** `stop_task()`: refused with no task in progress; otherwise the task,
      stamped with its end time, is appended to the ledger and cleared. */
  function StopTask(w: Worker, t: int): (r: Step<Worker, bool>)
    ensures r.Raised? <==> w.currentTask.None?
    ensures r.Raised? ==> r == Raised(w, AttendanceError(NoTaskMsg))
    ensures r.Returned? ==>
      var n := |w.productivityRecords|;
      && r.value
      && r.state.currentTask.None?
      && |r.state.productivityRecords| == n + 1
      && r.state.productivityRecords[..n] == w.productivityRecords
      && r.state.productivityRecords[n].Keys == w.currentTask.value.Keys + {"end_time"}
      && r.state.productivityRecords[n]["end_time"] == Int(t)
      && (forall k :: k in w.currentTask.value && k != "end_time" ==>
            r.state.productivityRecords[n][k] == w.currentTask.value[k])
      && r.state.(currentTask := w.currentTask, productivityRecords := w.productivityRecords) == w
  {
    match w.currentTask
    case None => Raised(w, AttendanceError(NoTaskMsg))
    case Some(task) =>
      Returned(w.(currentTask := None,
                  productivityRecords := w.productivityRecords + [task["end_time" := Int(t)]]), true)
  }

  /** The amount an entry adds to the ledger total: its "quantity", or 0
      when it has none. `None` marks a quantity that is not a number, on
      which the sum raises TypeError. */
  function Quantity(entry: map<string, Value>): Option<real>
  {
    if "quantity" in entry then Num(entry["quantity"]) else Some(0.0)
  }

  /** The ledger total: the sum of every entry's amount, left to right;
      `None` when some entry's quantity is not a number. */
  function Total(records: seq<map<string, Value>>): (r: Option<real>)
    ensures r.Some? <==> forall i :: 0 <= i < |records| ==> Quantity(records[i]).Some?
  {
    if |records| == 0 then Some(0.0)
    else
      match Quantity(records[0])
      case None => None
      case Some(q) =>
        match Total(records[1..])
        case None => None
        case Some(rest) => Some(q + rest)
  }

  /** The entry `record_output` appends. */
  function OutputEntry(quantity: Value, t: int): map<string, Value>
  {
    map["quantity" := quantity, "timestamp" := Int(t)]
  }

  /** `record_output(q)`: refuses a quantity that is not positive, else
      appends an output entry and returns the total over the whole ledger.
      A non-numeric quantity elsewhere in the ledger makes that sum raise,
      after the append. */
  function RecordOutput(w: Worker, quantity: Value, t: int): (r: Step<Worker, real>)
    ensures Num(quantity).None? ==> r == Raised(w, TypeError)
    ensures Num(quantity).Some? && Num(quantity).value <= 0.0 ==> r == Raised(w, ValidationError(QuantityMsg))
    ensures Num(quantity).Some? && Num(quantity).value > 0.0 ==>
      && r.state == w.(productivityRecords := w.productivityRecords + [OutputEntry(quantity, t)])
      && (r.Returned? <==> Total(w.productivityRecords).Some?)
    ensures r.Returned? ==> Total(r.state.productivityRecords) == Some(r.value)
  {
    match Num(quantity)
    case None => Raised(w, TypeError)
    case Some(q) =>
      if q <= 0.0 then Raised(w, ValidationError(QuantityMsg))
      else
        var w1 := w.(productivityRecords := w.productivityRecords + [OutputEntry(quantity, t)]);
        var records := w1.productivityRecords;
        assert records[|records| - 1] == OutputEntry(quantity, t);
        assert forall i :: 0 <= i < |w.productivityRecords| ==> records[i] == w.productivityRecords[i];
        match Total(records)
        case None => Raised(w1, TypeError)
        case Some(total) => Returned(w1, total)
  }
}
