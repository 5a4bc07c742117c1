/** A run of a new mission in which a refused human task misleads it. */
module MissionRuns {
  import opened Prelude
  import opened Json
  import opened Mission
  import opened MissionInvariants
  import opened MissionSoundness
  import opened MissionHuman

  /** A run continued by one more operation that does not die. */
  lemma {:induction false} Continue(db: Db, ops: seq<Operation>, op: Operation)
    requires forall o | o in ops :: Driven(o)
    requires Driven(op)
    ensures Complete(db, ops + [op]) == AfterOp(Complete(db, ops), op)
    ensures forall o | o in ops + [op] :: Driven(o)
  {
    assert (ops + [op])[..|ops|] == ops;
  }

  /** A plan of two steps with ids of their own. */
  function TwoSteps(a: Id, b: Id, def: StepDef): (steps: seq<PlanStep>) {
    [PlanStep(Some(a), def), PlanStep(Some(b), def)]
  }

  function RowsOf(a: Id, b: Id, def: StepDef): (rows: seq<Row>) {
    [Row(a, 1, 1, Frozen(def), Pending, None), Row(b, 1, 2, Frozen(def), Pending, None)]
  }

  /** The mission with this plan, before anything was executed. */
  predicate Planned(db: Db, a: Id, b: Id, def: StepDef) {
    && db.rows == RowsOf(a, b, def) && db.version == 1 && db.cursor == Some(a)
    && db.resume.None? && db.tasks == map[]
  }

  lemma {:induction false} PlanningRun(start: Db, a: Id, b: Id, def: StepDef) returns (ops: seq<Operation>)
    requires start == Fresh(start.mission, start.requirement, start.release, start.showcase)
    requires a != "" && b != "" && a != b
    ensures forall o | o in ops :: Driven(o)
    ensures Planned(Complete(start, ops), a, b, def)
  {
    var submit := OpSubmitPlan(Planner, TwoSteps(a, b, def), {});
    ops := [];
    Continue(start, ops, OpRequestReplan(Director));
    ops := ops + [OpRequestReplan(Director)];
    ReplayOne(start, StateSet(Planning, None));
    SubmittedTwo(Complete(start, ops), a, b, def);
    Continue(start, ops, submit);
    ops := ops + [submit];
  }

  lemma {:induction false} SubmittedTwo(db: Db, a: Id, b: Id, def: StepDef)
    requires db.state.Planning? && db.rows == [] && db.version == 0 && db.resume.None? && db.tasks == map[]
    requires a != "" && b != "" && a != b
    ensures Planned(AfterOp(db, OpSubmitPlan(Planner, TwoSteps(a, b, def), {})), a, b, def)
  {
    var plan := Numbered(db.mission, TwoSteps(a, b, def));
    assert plan == [(a, Frozen(def)), (b, Frozen(def))];
    assert IdsFree(db, plan, {});
    ReplayOne(db, PlanFrozen(plan));
    assert NewRows(1, plan) == RowsOf(a, b, def);
  }

  lemma {:induction false} PreflightIs(db: Db, environment: Id, w: World)
    ensures AfterOp(db, OpPreflight(environment, w)) == Apply(db, EvaluatePreflight(db, environment, w).writes[0])
  {
    ReplayOne(db, EvaluatePreflight(db, environment, w).writes[0]);
  }

  lemma {:induction false} ApprovalIs(db: Db)
    requires db.state.WaitingH3? || db.state.Blocked?
    ensures AfterOp(db, OpAuthorize(Approve)) ==
            db.(state := Executing, gates := db.gates[H3 := ReviewedGate(Approve)])
  {
    var gate := GateSet(H3, ReviewedGate(Approve));
    ReplayCons(db, gate, [StateSet(Executing, db.resume)]);
    ReplayOne(Apply(db, gate), StateSet(Executing, db.resume));
  }

  /** Whatever the preflight finds, an approving decision lets the mission execute. */
  lemma {:induction false} Approved(db: Db, environment: Id, w: World)
    ensures var r := AfterOp(AfterOp(db, OpPreflight(environment, w)), OpAuthorize(Approve));
      && r == db.(state := Executing, environment := Some(environment), fingerprint := r.fingerprint, gates := r.gates,
                  resume := r.resume)
      && r.resume == db.resume
      && (w.baselineOk ==> !BaselineChanged(r, w))
  {
    PreflightIs(db, environment, w);
    ApprovalIs(AfterOp(db, OpPreflight(environment, w)));
  }

  lemma {:induction false} FirstUnderCursor(db: Db)
    requires db.rows != [] && db.cursor == Some(db.rows[0].id)
    ensures CurrentStep(db) == Some(db.rows[0])
    ensures var mid := Apply(db, StepSet(db.rows[0].id, Running)); CurrentStep(mid) == Some(mid.rows[0])
  {
  }

  /** The three commits of an execution that goes well. */
  lemma {:induction false} FirstPlan(mid: Db, row: Row, capability: Id, w: World, value: Value, task: Id)
    requires mid.state.Executing? && CurrentStep(mid).Some? && CurrentStep(mid).value.id == row.id
    requires CurrentStep(mid).value.def == row.def && row.def.capability == Some(capability) && capability in w.registry
    requires Executor in w.registry[capability].roles && w.registry[capability].gate.None?
    ensures RunStepPlan(mid, w, row, Returned(value), task).writes ==
            [AuditAppended(AuditRow(Some(row.id), Executor, capability, Allowed))] +
            [StepOutput(row.id, InvocationResult(capability, value))]
  {
  }

  lemma {:induction false} FirstReplay(db: Db, id: Id, audit: AuditRow, output: Value)
    ensures var r := Replay(db, [StepSet(id, Running)] + ([AuditAppended(audit)] + [StepOutput(id, output)]));
      r == db.(state := Verifying, rows := SetOutput(db.rows, id, output), audit := r.audit)
  {
    var mid := Apply(db, StepSet(id, Running));
    ReplayCons(db, StepSet(id, Running), [AuditAppended(audit)] + [StepOutput(id, output)]);
    ReplayCons(mid, AuditAppended(audit), [StepOutput(id, output)]);
    ReplayOne(Apply(mid, AuditAppended(audit)), StepOutput(id, output));
    OutputOverStatus(db.rows, id, output);
  }

  /** The step under the cursor, the first on record, runs its capability and waits for its evaluation. */
  lemma {:induction false} ExecutedFirst(db: Db, capability: Id, w: World, value: Value, task: Id)
    requires db.state.Executing? && !BaselineChanged(db, w) && db.rows != [] && db.cursor == Some(db.rows[0].id)
    requires db.rows[0].def.capability == Some(capability) && capability in w.registry
    requires Executor in w.registry[capability].roles && w.registry[capability].gate.None?
    ensures var r := AfterOp(db, OpExecute(Executor, w, Returned(value), task));
      r == db.(state := Verifying, rows := SetOutput(db.rows, db.rows[0].id, InvocationResult(capability, value)),
        audit := r.audit)
  {
    var row := db.rows[0];
    FirstUnderCursor(db);
    FirstPlan(Apply(db, StepSet(row.id, Running)), row, capability, w, value, task);
    FirstReplay(db, row.id, AuditRow(Some(row.id), Executor, capability, Allowed), InvocationResult(capability, value));
  }

  lemma {:induction false} OutputOverStatus(rows: seq<Row>, id: Id, output: Value)
    ensures SetOutput(SetStatus(rows, id, Running), id, output) == SetOutput(rows, id, output)
  {
  }

  lemma {:induction false} SecondFollows(db: Db, a: Id, b: Id, def: StepDef, output: Value)
    requires a != b && db.cursor == Some(a) && db.rows == SetOutput(RowsOf(a, b, def), a, output)
    ensures CurrentStep(db) == Some(db.rows[0]) && Following(db) == Some(db.rows[1])
    ensures db.rows[0].id == a && db.rows[1] == Row(b, 1, 2, Frozen(def), Pending, None)
  {
    assert db.rows[..2][..1] == [db.rows[0]] && db.rows[..1][..0] == [] && db.rows[..|db.rows| - 1] == [db.rows[0]];
    assert [db.rows[0]][..0] == [];
  }
  /** The first step waits for its evaluation, and the second one has not been started. */
  ghost predicate AtFirst(db: Db, a: Id, b: Id, def: StepDef) {
    && db.state.Verifying? && db.tasks == map[] && db.resume.None? && db.cursor == Some(a)
    && exists output :: db.rows == SetOutput(RowsOf(a, b, def), a, output)
  }

  lemma {:induction false} VerifyingRun(start: Db, a: Id, b: Id, def: StepDef, capability: Id, environment: Id,
      w: World,
                                        value: Value, task: Id)
    returns (ops: seq<Operation>)
    requires start == Fresh(start.mission, start.requirement, start.release, start.showcase)
    requires a != "" && b != "" && a != b && w.baselineOk
    requires def.capability == Some(capability) && capability in w.registry
    requires Executor in w.registry[capability].roles && w.registry[capability].gate.None?
    ensures forall o | o in ops :: Driven(o)
    ensures AtFirst(Complete(start, ops), a, b, def)
  {
    ops := PlanningRun(start, a, b, def);
    Approved(Complete(start, ops), environment, w);
    Continue(start, ops, OpPreflight(environment, w));
    ops := ops + [OpPreflight(environment, w)];
    Continue(start, ops, OpAuthorize(Approve));
    ops := ops + [OpAuthorize(Approve)];
    ExecutedFirst(Complete(start, ops), capability, w, value, task);
    Continue(start, ops, OpExecute(Executor, w, Returned(value), task));
    ops := ops + [OpExecute(Executor, w, Returned(value), task)];
  }

  /** Suspended while executing the second step. */
  predicate SuspendedAtSecond(db: Db) {
    db.state.WaitingHuman? && db.resume == Some(Executing)
  }

  /** Verifying the second step, which was never executed. */
  predicate JudgesUnexecuted(db: Db, b: Id) {
    && db.state.Verifying? && CurrentStep(db).Some?
    && CurrentStep(db).value.id == b && CurrentStep(db).value.status.Pending? && CurrentStep(db).value.output.None?
  }

  lemma {:induction false} CursorOnSecond(db: Db, a: Id, b: Id, def: StepDef, output: Value)
    requires a != b && db.cursor == Some(b) && db.rows == SetStatus(SetOutput(RowsOf(a, b, def), a, output), a, Pass)
    ensures CurrentStep(db) == Some(Row(b, 1, 2, Frozen(def), Pending, None))
  {
    assert db.rows[0].id == a && db.rows[1] == Row(b, 1, 2, Frozen(def), Pending, None);
    assert db.rows[1..][0] == db.rows[1];
  }

  /** The five operations of the detour, from tables that wait for the first evaluation. */
  lemma {:induction false} Misled(db: Db, a: Id, b: Id, def: StepDef, orphan: Id, second: Id, user: Id)
    requires Sound(db) && AtFirst(db, a, b, def) && a != b && orphan != second
    ensures var s1 := AfterOp(db, OpCreateTask(orphan, true, None, None));
      var s2 := AfterOp(s1, OpEvaluate(Evaluator, Some(VerdictPass)));
      var s3 := AfterOp(s2, OpCreateTask(second, true, None, None));
      var s4 := AfterOp(s3, OpCompleteTask(second, user));
      SuspendedAtSecond(s3) && JudgesUnexecuted(AfterOp(s4, OpCompleteTask(orphan, user)), b)
  {
    var output :| db.rows == SetOutput(RowsOf(a, b, def), a, output);
    SecondFollows(db, a, b, def, output);
    OrphanRun(db, orphan, second, user);
    var s1 := AfterOp(db, OpCreateTask(orphan, true, None, None));
    var s2 := AfterOp(s1, OpEvaluate(Evaluator, Some(VerdictPass)));
    var s3 := AfterOp(s2, OpCreateTask(second, true, None, None));
    var s4 := AfterOp(s3, OpCompleteTask(second, user));
    CursorOnSecond(AfterOp(s4, OpCompleteTask(orphan, user)), a, b, def, output);
  }

  /**
   From a new mission, for any names: the first of two steps is executed; a task asked for
   meanwhile is refused but stays; the step passes; a second task suspends the mission while it
   executes the second step. Completing both tasks, the refused one last, puts the mission into
   VERIFYING on a step that was never executed.
   */
  lemma {:induction false} MisledRun(start: Db, a: Id, b: Id, def: StepDef, capability: Id, environment: Id, w: World,
                                     value: Value, task: Id, orphan: Id, second: Id, user: Id)
    returns (ops: seq<Operation>, last: Operation)
    requires start == Fresh(start.mission, start.requirement, start.release, start.showcase)
    requires a != "" && b != "" && a != b && w.baselineOk && orphan != second
    requires def.capability == Some(capability) && capability in w.registry
    requires Executor in w.registry[capability].roles && w.registry[capability].gate.None?
    ensures forall o | o in ops :: Driven(o)
    ensures ops != [] && last == OpCompleteTask(orphan, user) && SuspendedAtSecond(Complete(start, ops[..|ops| - 1]))
    ensures JudgesUnexecuted(Complete(start, ops + [last]), b)
  {
    ops := VerifyingRun(start, a, b, def, capability, environment, w, value, task);
    CompleteKeeps(start.mission, start.requirement, start.release, start.showcase, ops);
    Misled(Complete(start, ops), a, b, def, orphan, second, user);
    Continue(start, ops, OpCreateTask(orphan, true, None, None));
    ops := ops + [OpCreateTask(orphan, true, None, None)];
    Continue(start, ops, OpEvaluate(Evaluator, Some(VerdictPass)));
    ops := ops + [OpEvaluate(Evaluator, Some(VerdictPass))];
    Continue(start, ops, OpCreateTask(second, true, None, None));
    ops := ops + [OpCreateTask(second, true, None, None)];
    Continue(start, ops, OpCompleteTask(second, user));
    var longer := ops + [OpCompleteTask(second, user)];
    assert longer[..|longer| - 1] == ops;
    ops, last := longer, OpCompleteTask(orphan, user);
    Continue(start, ops, last);
  }
  // ---------------------------------------------------------- waiting for nobody

  /** Whatever the preflight says, the mission executes; it is suspended, and the completion dies. */
  function Stranding(environment: Id, w: World, task: Id, user: Id): (steps: seq<Step>) {
    [Step(OpPreflight(environment, w), 1), Step(OpAuthorize(Approve), 2),
     Step(OpCreateTask(task, true, None, None), 2), Step(OpCompleteTask(task, user), 1)]
  }

  lemma {:induction false} RunFour(db: Db, a: Step, b: Step, c: Step, d: Step)
    ensures Run(db, [a, b, c, d]) == After(After(After(After(db, a), b), c), d)
  {
    assert [a, b, c, d][..3] == [a, b, c] && [a, b, c][..2] == [a, b] && [a, b][..1] == [a] && [a][..0] == [];
    assert Run(db, []) == db;
    assert Run(db, [a]) == After(db, a);
    assert Run(db, [a, b]) == After(After(db, a), b);
    assert Run(db, [a, b, c]) == After(After(After(db, a), b), c);
  }

  lemma {:induction false} TwoCommits(db: Db, op: Operation)
    requires |PlanOf(db, op).writes| <= 2
    ensures After(db, Step(op, 2)) == AfterOp(db, op)
  {
  }

  lemma {:induction false} ApprovedSteps(db: Db, environment: Id, w: World)
    ensures var r := After(After(db, Step(OpPreflight(environment, w), 1)), Step(OpAuthorize(Approve), 2));
      r.state.Executing? && r.tasks == db.tasks
  {
    var mid := After(db, Step(OpPreflight(environment, w), 1));
    Approved(db, environment, w);
    TwoCommits(mid, OpAuthorize(Approve));
  }

  lemma {:induction false} DiesCompleting(db: Db, task: Id, user: Id)
    requires db.state.WaitingHuman? && db.tasks == map[task := HumanTask(None, None, TaskWaiting, Executing)]
    ensures var r := After(db, Step(OpCompleteTask(task, user), 1)); r.state.WaitingHuman? && !AnyOpen(r)
  {
    var close := TaskSet(task, db.tasks[task].(status := TaskDone, assignee := Some(user)));
    assert Take(CompleteTask(db, task, user).writes, 1) == [close];
    ReplayOne(db, close);
  }

  /**
   From a new mission, for any names: it is taken to EXECUTING and suspended for a human; the process
   dies while the task is completed, and the mission waits for nobody.
   */
  lemma {:induction false} StrandedRun(start: Db, environment: Id, w: World, task: Id, user: Id)
    requires start == Fresh(start.mission, start.requirement, start.release, start.showcase)
    ensures var r := Run(start, Stranding(environment, w, task, user)); r.state.WaitingHuman? && !AnyOpen(r)
  {
    var steps := Stranding(environment, w, task, user);
    RunFour(start, steps[0], steps[1], steps[2], steps[3]);
    ApprovedSteps(start, environment, w);
    var executing := After(After(start, steps[0]), steps[1]);
    ExecutionSuspends(executing, task);
    TwoCommits(executing, OpCreateTask(task, true, None, None));
    DiesCompleting(After(executing, steps[2]), task, user);
  }

  // ------------------------------------------------------- a completed mission, reopened

  /** A plan of one step, before anything was executed. */
  predicate OneStep(db: Db, a: Id, def: StepDef) {
    db.rows == [Row(a, 1, 1, Frozen(def), Pending, None)] && db.version == 1 && db.cursor == Some(a)
  }

  lemma {:induction false} SubmittedOne(db: Db, a: Id, def: StepDef)
    requires db.state.Planning? && db.rows == [] && db.version == 0 && a != ""
    ensures OneStep(AfterOp(db, OpSubmitPlan(Planner, [PlanStep(Some(a), def)], {})), a, def)
  {
    var plan := Numbered(db.mission, [PlanStep(Some(a), def)]);
    assert plan == [(a, Frozen(def))] && IdsFree(db, plan, {});
    ReplayOne(db, PlanFrozen(plan));
    assert NewRows(1, plan) == [Row(a, 1, 1, Frozen(def), Pending, None)];
  }

  lemma {:induction false} OneStepRun(start: Db, a: Id, def: StepDef) returns (ops: seq<Operation>)
    requires start == Fresh(start.mission, start.requirement, start.release, start.showcase) && a != ""
    ensures forall o | o in ops :: Driven(o)
    ensures OneStep(Complete(start, ops), a, def)
  {
    var submit := OpSubmitPlan(Planner, [PlanStep(Some(a), def)], {});
    ops := [];
    Continue(start, ops, OpRequestReplan(Director));
    ops := ops + [OpRequestReplan(Director)];
    ReplayOne(start, StateSet(Planning, None));
    SubmittedOne(Complete(start, ops), a, def);
    Continue(start, ops, submit);
    ops := ops + [submit];
  }

  lemma {:induction false} OnlyStepPasses(db: Db)
    requires db.state.Verifying? && |db.rows| == 1 && db.cursor == Some(db.rows[0].id)
    ensures AfterOp(db, OpEvaluate(Evaluator, Some(VerdictPass))).state.WaitingH4?
  {
    assert db.rows[..0] == [] && Following(db).None?;
    ReplayOne(db, StepJudged(db.rows[0].id, VerdictPass, None));
  }

  lemma {:induction false} Finalized(db: Db)
    requires db.state.WaitingH4?
    ensures AfterOp(db, OpFinalize(Approve)).state.Completed?
  {
    var gate := GateSet(H4, ReviewedGate(Approve));
    ReplayCons(db, gate, [StateSet(Completed, db.resume)]);
    ReplayOne(Apply(db, gate), StateSet(Completed, db.resume));
  }

  lemma {:induction false} CompletedRun(start: Db, a: Id, def: StepDef, capability: Id, environment: Id, w: World,
      value: Value, task: Id)
    returns (ops: seq<Operation>)
    requires start == Fresh(start.mission, start.requirement, start.release, start.showcase)
    requires a != "" && w.baselineOk && def.capability == Some(capability) && capability in w.registry
    requires Executor in w.registry[capability].roles && w.registry[capability].gate.None?
    ensures forall o | o in ops :: Driven(o)
    ensures Complete(start, ops).state.Completed?
  {
    ops := OneStepRun(start, a, def);
    Approved(Complete(start, ops), environment, w);
    Continue(start, ops, OpPreflight(environment, w));
    ops := ops + [OpPreflight(environment, w)];
    Continue(start, ops, OpAuthorize(Approve));
    ops := ops + [OpAuthorize(Approve)];
    ExecutedFirst(Complete(start, ops), capability, w, value, task);
    Continue(start, ops, OpExecute(Executor, w, Returned(value), task));
    ops := ops + [OpExecute(Executor, w, Returned(value), task)];
    OnlyStepPasses(Complete(start, ops));
    Continue(start, ops, OpEvaluate(Evaluator, Some(VerdictPass)));
    ops := ops + [OpEvaluate(Evaluator, Some(VerdictPass))];
    Finalized(Complete(start, ops));
    Continue(start, ops, OpFinalize(Approve));
    ops := ops + [OpFinalize(Approve)];
  }

  /**
   From a new mission, for any names: its only step passes, H4 is approved, and the mission is
   COMPLETED; any later preflight evaluation takes it to WAITING_H3 or BLOCKED.
   */
  lemma {:induction false} ReopenedRun(start: Db, a: Id, def: StepDef, capability: Id, environment: Id, w: World,
      value: Value,
                                       task: Id, later: World)
    returns (ops: seq<Operation>)
    requires start == Fresh(start.mission, start.requirement, start.release, start.showcase)
    requires a != "" && w.baselineOk && def.capability == Some(capability) && capability in w.registry
    requires Executor in w.registry[capability].roles && w.registry[capability].gate.None?
    ensures forall o | o in ops :: Driven(o)
    ensures Complete(start, ops).state.Completed?
    ensures AfterOp(Complete(start, ops), OpPreflight(environment, later)).state in {WaitingH3, Blocked}
  {
    ops := CompletedRun(start, a, def, capability, environment, w, value, task);
    ReplayOne(Complete(start, ops), EvaluatePreflight(Complete(start, ops), environment, later).writes[0]);
  }
}
