/**
 Properties of the production worker that relate several calls: the skill
 list as a set, the task state machine, the ledger total as a fold, and the
 unit assignment against the activation flag.
 */
module WorkerProperties {
  import opened PyValues
  import opened Employees
  import opened Workers

  // ----- Construction -----

  /** With every worker parameter left out, a worker starts idle with no
      skills, an empty ledger, no unit and the "salary" wage type. */
  lemma DefaultsOfNewWorker(a: Args)
    requires WellTyped(a)
    ensures var r := NewWorker(a, DefaultWorkerArgs);
      && r.Ok?
      && r.value.skills == []
      && r.value.productivityRecords == []
      && r.value.currentTask == None
      && r.value.assignedUnitId == PyNone
      && r.value.shift == PyNone
      && r.value.wageType == Str("salary")
  {
  }

  /** The worker parameters are never checked: any of them, with valid
      employee arguments, gives a worker. */
  lemma WorkerFieldsUnchecked(a: Args, w: WorkerArgs)
    requires WellTyped(a)
    ensures NewWorker(a, w).Ok?
  {
  }

  // ----- Skills -----

  predicate NoDuplicates<T(==)>(xs: seq<T>)
  {
    forall i, j :: 0 <= i < j < |xs| ==> xs[i] != xs[j]
  }

  /** The position of the first `x` in `xs`. */
  function IndexOf<T(==)>(xs: seq<T>, x: T): (i: nat)
    requires x in xs
    ensures i < |xs| && xs[i] == x && x !in xs[..i]
  {
    if xs[0] == x then 0
    else
      var j := IndexOf(xs[1..], x);
      assert xs[..j + 1] == [xs[0]] + xs[1..][..j];
      j + 1
  }

  /** Slicing a non-empty sequence around position `j + 1` is slicing its
      tail around `j`. */
  lemma SliceAfterHead<T>(xs: seq<T>, j: nat)
    requires j + 1 < |xs|
    ensures xs[..j + 1] == [xs[0]] + xs[1..][..j]
    ensures xs[j + 2..] == xs[1..][j + 1..]
  {
  }

  /** `list.remove(x)` cuts out exactly the first occurrence and keeps the
      order of everything else. */
  lemma {:induction false} RemoveFirstCutsFirstOccurrence<T>(xs: seq<T>, x: T)
    requires x in xs
    ensures var i := IndexOf(xs, x);
      RemoveFirst(xs, x) == xs[..i] + xs[i + 1..]
  {
    if xs[0] != x {
      var tail := xs[1..];
      RemoveFirstCutsFirstOccurrence(tail, x);
      var j := IndexOf(tail, x);
      SliceAfterHead(xs, j);
      calc {
        RemoveFirst(xs, x);
        [xs[0]] + RemoveFirst(tail, x);
        [xs[0]] + (tail[..j] + tail[j + 1..]);
        ([xs[0]] + tail[..j]) + tail[j + 1..];
        xs[..j + 1] + xs[j + 2..];
      }
    }
  }

  /** `remove_skills(s)` cuts out the first occurrence of `s` from the
      skill list and keeps the order of the other skills. */
  lemma RemoveSkillsCutsFirstOccurrence(w: Worker, skill: string)
    requires skill in w.skills
    ensures var i := IndexOf(w.skills, skill);
      RemoveSkills(w, skill).skills == w.skills[..i] + w.skills[i + 1..]
  {
    RemoveFirstCutsFirstOccurrence(w.skills, skill);
  }

  /** Adding a skill twice is adding it once. */
  lemma AddSkillIdempotent(w: Worker, skill: string)
    ensures AddSkill(AddSkill(w, skill), skill) == AddSkill(w, skill)
  {
  }

  /** Adding a new skill twice lists it exactly once. */
  lemma AddNewSkillTwiceListsItOnce(w: Worker, skill: string)
    requires skill !in w.skills
    ensures multiset(AddSkill(AddSkill(w, skill), skill).skills)[skill] == 1
  {
    assert multiset(w.skills)[skill] == 0;
    assert AddSkill(AddSkill(w, skill), skill).skills == w.skills + [skill];
  }

  /** Removing the first occurrence from a duplicate-free list removes the
      element entirely and leaves the list duplicate-free. */
  lemma RemoveFirstKeepsNoDuplicates<T>(xs: seq<T>, x: T)
    requires NoDuplicates(xs) && x in xs
    ensures NoDuplicates(RemoveFirst(xs, x)) && x !in RemoveFirst(xs, x)
  {
    RemoveFirstCutsFirstOccurrence(xs, x);
    var i := IndexOf(xs, x);
    var r := RemoveFirst(xs, x);
    assert forall k :: 0 <= k < |r| ==> r[k] == xs[if k < i then k else k + 1];
  }

  /** The skill operations keep a duplicate-free list duplicate-free, and
      on such a list removing a skill removes it entirely. */
  lemma SkillsStayDuplicateFree(w: Worker, skill: string)
    requires NoDuplicates(w.skills)
    ensures NoDuplicates(AddSkill(w, skill).skills)
    ensures NoDuplicates(RemoveSkills(w, skill).skills)
    ensures skill !in RemoveSkills(w, skill).skills
  {
    if skill in w.skills {
      RemoveFirstKeepsNoDuplicates(w.skills, skill);
    }
  }

  // ----- Tasks -----

  /** Starting a second task without stopping the first fails. */
  lemma StartTaskTwiceFails(w: Worker, first: map<string, Value>, second: map<string, Value>, t1: int, t2: int)
    requires StartTask(w, first, t1).Returned?
    ensures var w1 := StartTask(w, first, t1).state;
      StartTask(w1, second, t2) == Raised(w1, AttendanceError(AlreadyWorkingMsg))
  {
  }

  /** Stopping with no task in progress fails. */
  lemma StopWithoutTaskFails(w: Worker, t: int)
    requires w.currentTask.None?
    ensures StopTask(w, t) == Raised(w, AttendanceError(NoTaskMsg))
  {
  }

  /** A start followed by a stop returns the worker to idle with one more
      ledger entry: the task stamped with both times. */
  lemma StartThenStop(w: Worker, info: map<string, Value>, t0: int, t1: int)
    requires w.currentTask.None?
    ensures var r := StopTask(StartTask(w, info, t0).state, t1);
      && r.Returned?
      && r.state.currentTask.None?
      && r.state.productivityRecords
         == w.productivityRecords + [info["start_time" := Int(t0)]["end_time" := Int(t1)]]
      && r.state.(productivityRecords := w.productivityRecords) == w
  {
  }

  // ----- Output ledger -----

  /** The ledger total as a fold: appending one entry adds its quantity, and
      a non-numeric quantity anywhere makes the total fail. */
  lemma {:induction false} TotalAppend(records: seq<map<string, Value>>, entry: map<string, Value>)
    ensures Total(records + [entry])
         == if Total(records).Some? && Quantity(entry).Some?
            then Some(Total(records).value + Quantity(entry).value)
            else None
    decreases |records|
  {
    if |records| == 0 {
      assert records + [entry] == [entry];
      assert [entry][1..] == [];
    } else {
      assert (records + [entry])[1..] == records[1..] + [entry];
      TotalAppend(records[1..], entry);
    }
  }

  /** `record_output(q)` returns the previous ledger total plus `q`. */
  lemma RecordOutputAddsQuantity(w: Worker, q: Value, t: int)
    requires Num(q).Some? && Num(q).value > 0.0
    requires Total(w.productivityRecords).Some?
    ensures var r := RecordOutput(w, q, t);
      r.Returned? && r.value == Total(w.productivityRecords).value + Num(q).value
  {
    TotalAppend(w.productivityRecords, OutputEntry(q, t));
  }

  /** A finished task without a "quantity" leaves the total as it was. */
  lemma TaskWithoutQuantityAddsNothing(w: Worker, info: map<string, Value>, t0: int, t1: int)
    requires w.currentTask.None? && "quantity" !in info
    ensures Total(StopTask(StartTask(w, info, t0).state, t1).state.productivityRecords)
         == Total(w.productivityRecords)
  {
    var task := info["start_time" := Int(t0)]["end_time" := Int(t1)];
    TotalAppend(w.productivityRecords, task);
  }

  /** On an empty ledger, recording 100 and then 50 returns 150. */
  lemma RecordOutputExample(w: Worker, t1: int, t2: int)
    requires w.productivityRecords == []
    ensures var r1 := RecordOutput(w, Int(100), t1);
      && r1 == Returned(r1.state, 100.0)
      && RecordOutput(r1.state, Int(50), t2).Returned?
      && RecordOutput(r1.state, Int(50), t2).value == 150.0
  {
    RecordOutputAddsQuantity(w, Int(100), t1);
    var r1 := RecordOutput(w, Int(100), t1);
    RecordOutputAddsQuantity(r1.state, Int(50), t2);
  }

  /** Zero and negative quantities are refused and leave the ledger alone. */
  lemma NonPositiveQuantitiesRefused(w: Worker, t: int)
    ensures RecordOutput(w, Int(0), t) == Raised(w, ValidationError(QuantityMsg))
    ensures RecordOutput(w, Int(-1), t) == Raised(w, ValidationError(QuantityMsg))
  {
  }

  // ----- Unit assignment -----

  /** Deactivating a worker makes unit assignment fail; activating it again
      makes it succeed, and only the misspelled attribute changes. */
  lemma AssignmentFollowsActivation(w: Worker, reason: Value, unitId: Value)
    ensures var off := w.(base := Deactivate(w.base, reason));
      AssignToUnit(off, unitId) == Raised(off, ValidationError(InactiveMsg))
    ensures var on := w.(base := Activate(w.base));
      AssignToUnit(on, unitId) == Returned(on.(assignToUnitId := Some(unitId)), ())
    ensures var on := w.(base := Activate(w.base));
      AssignToUnit(on, unitId).state.assignedUnitId == w.assignedUnitId
  {
  }
}
